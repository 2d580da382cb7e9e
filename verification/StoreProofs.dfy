/** Where the proof contract comes from: single-level ICS-23 checks, chained proofs and injective store keys. */
module StoreProofs {
  import opened Prelude
  import opened Paths
  import opened IbcStore
  import Merkle

  /** Prefixes, text, values and proofs as bytes, and the proof formats of the IBC store and of the root store above it. */
  datatype Codec = Codec(
    prefixKey: Bytes -> Bytes,
    text: string -> Bytes,
    value: Value -> Bytes,
    proofs: Bytes -> seq<Merkle.CommitmentProof>,
    leafSpec: Merkle.Spec,
    topSpec: Merkle.Spec)

  ghost predicate Faithful(c: Codec) {
    && (forall p, q :: c.prefixKey(p) == c.prefixKey(q) ==> p == q)
    && (forall a, b :: c.text(a) == c.text(b) ==> a == b)
    && (forall v, u :: c.value(v) == c.value(u) ==> v == u)
  }

  function KeyOf(c: Codec, p: Path): Bytes { c.text(Print(p)) }

  /** The client's check: the path prefixed by the store's own key, verified level by level. */
  ghost predicate ChecksChainedProofs(env: Env, ics: Merkle.Ics23, c: Codec) {
    && (forall root, prefix, proof, path, v ::
          env.member(root, prefix, proof, path, v) <==>
            Merkle.MembershipAccepted(ics, c.proofs(proof), [c.leafSpec, c.topSpec], root,
                                      [c.prefixKey(prefix), KeyOf(c, path)], c.value(v), 0))
    && (forall root, prefix, proof, path ::
          env.absent(root, prefix, proof, path) <==>
            Merkle.NonMembershipAccepted(ics, c.proofs(proof), [c.leafSpec, c.topSpec], root, [c.prefixKey(prefix), KeyOf(c, path)]))
  }

  /** The entries of a store are its values at well-formed paths, keyed by the printed path, and nothing else. */
  ghost predicate Holds(env: Env, c: Codec, s: Store, entries: map<Bytes, Bytes>) {
    && (forall key :: key in entries ==> exists p :: ValidPath(env.alnum, p) && key == KeyOf(c, p) && Lookup(s, p).Some?)
    && (forall p :: ValidPath(env.alnum, p) && Lookup(s, p).Some? ==>
          KeyOf(c, p) in entries && entries[KeyOf(c, p)] == c.value(Lookup(s, p).value))
  }

  /** A block root commits to the IBC store under the chain's prefix; no other store holds IBC keys. */
  ghost predicate Commits(env: Env, content: Merkle.Content, c: Codec, s: Store) {
    var top := content(c.topSpec, env.rootOf(s));
    var own := c.prefixKey(s.config.prefix);
    && own in top
    && Holds(env, c, s, content(c.leafSpec, top[own]))
    && (forall q, p :: q in top && q != own && ValidPath(env.alnum, p) ==> KeyOf(c, p) !in content(c.leafSpec, top[q]))
  }

  /** A two-level lookup opens the store under the prefix, then the key in it. */
  lemma TwoLevels(content: Merkle.Content, leaf: Merkle.Spec, top: Merkle.Spec, root: Bytes, prefix: Bytes, key: Bytes)
    ensures Merkle.Lookup(content, [leaf, top], root, [prefix, key]) ==
              if prefix in content(top, root) && key in content(leaf, content(top, root)[prefix])
              then Some(content(leaf, content(top, root)[prefix])[key]) else None
  {
    Merkle.LookupLeaf(content, [leaf, top], root, [prefix, key]);
    assert [leaf, top][1..] == [top] && [prefix, key][..1] == [prefix];
    Merkle.LookupLeaf(content, [top], root, [prefix]);
    assert [top][1..] == [] && [prefix][..0] == [];
  }

  /** Distinct entries have distinct keys, so an entry found under a path's key is that path's value. */
  lemma EntryIsValue(env: Env, c: Codec, s: Store, entries: map<Bytes, Bytes>, p: Path, v: Value)
    requires !env.alnum('/') && Faithful(c) && Holds(env, c, s, entries) && ValidPath(env.alnum, p)
    requires KeyOf(c, p) in entries && entries[KeyOf(c, p)] == c.value(v)
    ensures Lookup(s, p) == Some(v)
  {
    hide ValidPath, Lookup, Print;
    var q :| ValidPath(env.alnum, q) && KeyOf(c, p) == KeyOf(c, q) && Lookup(s, q).Some?;
    PrintInjective(env.alnum, p, q);
  }

  /** Single-level soundness, the chained check and injective keys together give the contract every handler relies on. */
  lemma ChainedProofsAreSound(env: Env, ics: Merkle.Ics23, content: Merkle.Content, c: Codec)
    requires !env.alnum('/') && Faithful(c) && Merkle.Sound(ics, content)
    requires ChecksChainedProofs(env, ics, c) && forall s :: Commits(env, content, c, s)
    ensures ProofsSound(env)
  {
    hide ValidPath, Lookup, Merkle.Lookup, Merkle.MembershipAccepted, Merkle.NonMembershipAccepted, Merkle.Sound, Holds, KeyOf;
    var specs := [c.leafSpec, c.topSpec];
    forall s, prefix, proof, path, v | ValidPath(env.alnum, path) && env.member(env.rootOf(s), prefix, proof, path, v)
      ensures prefix == s.config.prefix && Lookup(s, path) == Some(v)
    {
      var root := env.rootOf(s);
      assert Commits(env, content, c, s);
      Merkle.MembershipIsLookup(ics, content, c.proofs(proof), specs, root, [c.prefixKey(prefix), KeyOf(c, path)], c.value(v));
      TwoLevels(content, c.leafSpec, c.topSpec, root, c.prefixKey(prefix), KeyOf(c, path));
      EntryIsValue(env, c, s, content(c.leafSpec, content(c.topSpec, root)[c.prefixKey(prefix)]), path, v);
    }
    forall s, prefix, proof, path
      | ValidPath(env.alnum, path) && env.absent(env.rootOf(s), prefix, proof, path) && prefix == s.config.prefix
      ensures Lookup(s, path) == None
    {
      var root := env.rootOf(s);
      assert Commits(env, content, c, s);
      Merkle.NonMembershipIsLookup(ics, content, c.proofs(proof), specs, root, [c.prefixKey(prefix), KeyOf(c, path)]);
      TwoLevels(content, c.leafSpec, c.topSpec, root, c.prefixKey(prefix), KeyOf(c, path));
      if Lookup(s, path).Some? { EntryStored(env, c, s, content(c.leafSpec, content(c.topSpec, root)[c.prefixKey(prefix)]), path); }
    }
  }

  lemma EntryStored(env: Env, c: Codec, s: Store, entries: map<Bytes, Bytes>, p: Path)
    requires Holds(env, c, s, entries) && ValidPath(env.alnum, p) && Lookup(s, p).Some?
    ensures KeyOf(c, p) in entries
  {
    hide ValidPath, Lookup, Print;
  }

  // ---------------------------------------------------------------- completeness

  /** Every key missing from a tree that is not empty has a single-level absence proof. */
  ghost predicate AbsenceComplete(ics: Merkle.Ics23, content: Merkle.Content) {
    forall s, root, key :: key !in content(s, root) && content(s, root) != map[] ==> exists p :: Merkle.ShowsAbsent(ics, p, s, root, key)
  }

  /** Roots, values and the root of the IBC store are never empty bytes. */
  ghost predicate NeverEmpty(env: Env, content: Merkle.Content, c: Codec) {
    && (forall s :: |env.rootOf(s)| > 0)
    && (forall v :: |c.value(v)| > 0)
    && (forall s :: var top := content(c.topSpec, env.rootOf(s));
          var own := c.prefixKey(s.config.prefix); own in top ==> |top[own]| > 0)
  }

  lemma StoredIsShown(env: Env, ics: Merkle.Ics23, content: Merkle.Content, c: Codec, s: Store, path: Path, v: Value)
    returns (proofs: seq<Merkle.CommitmentProof>)
    requires Merkle.Sound(ics, content) && Merkle.Complete(ics, content) && NeverEmpty(env, content, c) && Commits(env, content, c, s)
    requires ValidPath(env.alnum, path) && Lookup(s, path) == Some(v)
    ensures Merkle.MembershipAccepted(ics, proofs, [c.leafSpec, c.topSpec], env.rootOf(s),
                                      [c.prefixKey(s.config.prefix), KeyOf(c, path)], c.value(v), 0)
  {
    hide ValidPath, Lookup, Merkle.Lookup, Merkle.MembershipAccepted, Merkle.Sound, Merkle.Complete, KeyOf;
    var specs, keys := [c.leafSpec, c.topSpec], [c.prefixKey(s.config.prefix), KeyOf(c, path)];
    TwoLevels(content, c.leafSpec, c.topSpec, env.rootOf(s), c.prefixKey(s.config.prefix), KeyOf(c, path));
    Merkle.MembershipExactly(ics, content, specs, env.rootOf(s), keys, c.value(v));
    proofs :| Merkle.MembershipAccepted(ics, proofs, specs, env.rootOf(s), keys, c.value(v), 0);
  }

  /** A store is never empty: its counters are always there. */
  lemma CountersStored(env: Env, c: Codec, s: Store, entries: map<Bytes, Bytes>)
    requires Holds(env, c, s, entries)
    ensures entries != map[]
  {
    hide KeyOf;
    EntryStored(env, c, s, entries, NextClientSequence);
  }

  lemma MissingIsShown(env: Env, ics: Merkle.Ics23, content: Merkle.Content, c: Codec, s: Store, path: Path)
    returns (proofs: seq<Merkle.CommitmentProof>)
    requires !env.alnum('/') && Faithful(c)
    requires Merkle.Sound(ics, content) && Merkle.Complete(ics, content) && AbsenceComplete(ics, content)
    requires NeverEmpty(env, content, c) && Commits(env, content, c, s)
    requires ValidPath(env.alnum, path) && Lookup(s, path) == None
    ensures Merkle.NonMembershipAccepted(ics, proofs, [c.leafSpec, c.topSpec], env.rootOf(s),
                                         [c.prefixKey(s.config.prefix), KeyOf(c, path)])
  {
    hide ValidPath, Lookup, Merkle.Lookup, Merkle.NonMembershipAccepted, Merkle.Sound, Merkle.Complete, Merkle.ShowsAbsent, KeyOf, Holds, Faithful;
    var own, key := c.prefixKey(s.config.prefix), KeyOf(c, path);
    var specs, keys := [c.leafSpec, c.topSpec], [own, key];
    var sub := content(c.topSpec, env.rootOf(s))[own];
    CountersStored(env, c, s, content(c.leafSpec, sub));
    if key in content(c.leafSpec, sub) { MissingKey(env, c, s, content(c.leafSpec, sub), path); }
    var p :| Merkle.ShowsAbsent(ics, p, c.leafSpec, sub, key);
    OneLevel(content, c.topSpec, env.rootOf(s), own);
    assert specs[1..] == [c.topSpec] && keys[..1] == [own];
    assert Merkle.AbsentAt(ics, content, specs, env.rootOf(s), keys, sub, p);
    Merkle.NonMembershipExactly(ics, content, specs, env.rootOf(s), keys);
    proofs :| Merkle.NonMembershipAccepted(ics, proofs, specs, env.rootOf(s), keys);
  }

  lemma OneLevel(content: Merkle.Content, top: Merkle.Spec, root: Bytes, prefix: Bytes)
    ensures Merkle.Lookup(content, [top], root, [prefix]) ==
              if prefix in content(top, root) then Some(content(top, root)[prefix]) else None
  {
    Merkle.LookupLeaf(content, [top], root, [prefix]);
    assert [top][1..] == [] && [prefix][..0] == [];
  }

  lemma MissingKey(env: Env, c: Codec, s: Store, entries: map<Bytes, Bytes>, p: Path)
    requires !env.alnum('/') && Faithful(c) && Holds(env, c, s, entries) && ValidPath(env.alnum, p) && Lookup(s, p) == None
    ensures KeyOf(c, p) !in entries
  {
    hide ValidPath, Lookup, Print;
    if KeyOf(c, p) in entries {
      var q :| ValidPath(env.alnum, q) && KeyOf(c, p) == KeyOf(c, q) && Lookup(s, q).Some?;
      PrintInjective(env.alnum, p, q);
      assert false;
    }
  }

  /** Single-level completeness gives that of the handlers' proofs, when any list of proofs can be written as bytes. */
  lemma ChainedProofsAreComplete(env: Env, ics: Merkle.Ics23, content: Merkle.Content, c: Codec, pack: seq<Merkle.CommitmentProof> -> Bytes)
    requires !env.alnum('/') && Faithful(c) && (forall ps :: c.proofs(pack(ps)) == ps)
    requires Merkle.Sound(ics, content) && Merkle.Complete(ics, content) && AbsenceComplete(ics, content) && NeverEmpty(env, content, c)
    requires ChecksChainedProofs(env, ics, c) && forall s :: Commits(env, content, c, s)
    ensures ProofsComplete(env)
  {
    hide ValidPath, Lookup, Merkle.MembershipAccepted, Merkle.NonMembershipAccepted, Merkle.Sound, Merkle.Complete, AbsenceComplete, KeyOf, NeverEmpty;
    forall s, path, v | ValidPath(env.alnum, path) && Lookup(s, path) == Some(v)
      ensures exists proof :: env.member(env.rootOf(s), s.config.prefix, proof, path, v)
    {
      assert Commits(env, content, c, s);
      var ps := StoredIsShown(env, ics, content, c, s, path, v);
      assert env.member(env.rootOf(s), s.config.prefix, pack(ps), path, v);
    }
    forall s, path | ValidPath(env.alnum, path) && Lookup(s, path) == None
      ensures exists proof :: env.absent(env.rootOf(s), s.config.prefix, proof, path)
    {
      assert Commits(env, content, c, s);
      var ps := MissingIsShown(env, ics, content, c, s, path);
      assert env.absent(env.rootOf(s), s.config.prefix, pack(ps), path);
    }
  }
}
