/** Signed packages: the publisher's signer (scr/signer.py, scr/package.py) and the loader that
    verifies what it finds in an archive (scr/loader.py, scr/signing.py). */
module Package {
  import opened Basics
  import opened Merkle

  /** The primitives: SHA-256, Ed25519 (section 5.1 of RFC 8032), key ids, and the text of a revocation list
      that is signed. */
  datatype Crypto = Crypto(
    hash: Bytes -> Bytes,
    sign: (Bytes, Bytes) -> Bytes,
    verify: (Bytes, Bytes, Bytes) -> bool,
    publicOf: Bytes -> Bytes,
    keyId: Bytes -> Bytes,
    listText: set<(string, string)> -> Bytes)

  datatype Signature = Signature(root: Bytes, publicKey: Bytes, value: Bytes)

  /** `members` are the archive's payload members: manifest and SIGNATURE are not among them. */
  datatype Archive =
    | Malformed
    | Archive(name: string, version: string, declared: Files, members: map<Bytes, Bytes>, signature: Option<Signature>)

  type Keystore = map<Bytes, Bytes>

  predicate Trusts(c: Crypto, keys: Keystore, publicKey: Bytes) {
    var id := c.keyId(publicKey);
    id in keys && keys[id] == publicKey
  }

  datatype Revocations = Revocations(revoked: set<(string, string)>, publicKey: Bytes, value: Bytes)

  /** A list counts only if a trusted key signed it. */
  predicate Honored(c: Crypto, keys: Keystore, r: Revocations) {
    r.value != [] && Trusts(c, keys, r.publicKey) && c.verify(r.publicKey, r.value, c.listText(r.revoked))
  }

  predicate IsRevoked(c: Crypto, keys: Keystore, r: Option<Revocations>, name: string, version: string) {
    r.Some? && Honored(c, keys, r.value) && (name, version) in r.value.revoked
  }

  datatype LoadResult = Accepted | Rejected(error: LoadError)

  datatype LoadError =
    | MalformedPackage | MissingFiles | UnexpectedFiles | TamperedFile(path: Bytes)
    | Unsigned | RootMismatch | BadSignature | UntrustedKey | Revoked

  // ----------------------------------------------------------------- the conditions

  predicate SameMembers(a: Archive)
    requires a.Archive?
  {
    a.declared.Keys == a.members.Keys
  }

  predicate FileIntact(c: Crypto, a: Archive, path: Bytes)
    requires a.Archive?
  {
    path in a.declared && path in a.members && c.hash(a.members[path]) == a.declared[path]
  }

  predicate Intact(c: Crypto, a: Archive)
    requires a.Archive?
  {
    SameMembers(a) && forall path :: path in a.declared ==> FileIntact(c, a, path)
  }

  predicate Signed(c: Crypto, a: Archive)
    requires a.Archive?
  {
    && a.signature.Some?
    && a.signature.value.root == Root(c.hash, a.declared)
    && c.verify(a.signature.value.publicKey, a.signature.value.value, Root(c.hash, a.declared))
  }

  predicate Acceptable(c: Crypto, keys: Keystore, revocations: Option<Revocations>, a: Archive) {
    && a.Archive?
    && Intact(c, a) && Signed(c, a)
    && Trusts(c, keys, a.signature.value.publicKey)
    && !IsRevoked(c, keys, revocations, a.name, a.version)
  }

  /** Declared and present files are the same, each with its declared hash. */
  ghost predicate ContentsMatch(c: Crypto, a: Archive)
    requires a.Archive?
  {
    && (forall path :: path in a.declared <==> path in a.members)
    && forall path :: path in a.members && path in a.declared ==> c.hash(a.members[path]) == a.declared[path]
  }

  /** A pinned key verifies the signature of the Merkle root of the declared files. */
  predicate SignatureVerifies(c: Crypto, keys: Keystore, a: Archive)
    requires a.Archive?
  {
    && a.signature.Some?
    && var s := a.signature.value;
       && s.root == Root(c.hash, a.declared) && c.verify(s.publicKey, s.value, s.root)
       && s.publicKey in keys.Values && c.keyId(s.publicKey) in keys && keys[c.keyId(s.publicKey)] == s.publicKey
  }

  /** The list is signed, and the signature of its text verifies under the pinned key that it names. */
  predicate ListVerifies(c: Crypto, keys: Keystore, r: Revocations) {
    && r.value != [] && c.verify(r.publicKey, r.value, c.listText(r.revoked))
    && c.keyId(r.publicKey) in keys && keys[c.keyId(r.publicKey)] == r.publicKey
  }

  /** The first check to fail, in the loader's order, and the first tampered file in path order. */
  method VerifyPackage(c: Crypto, keys: Keystore, revocations: Option<Revocations>, a: Archive) returns (r: LoadResult)
    ensures r.Accepted? <==> Acceptable(c, keys, revocations, a)
    ensures r == Rejected(MalformedPackage) <==> a.Malformed?
    ensures r == Rejected(MissingFiles) <==> a.Archive? && !(a.declared.Keys <= a.members.Keys)
    ensures r == Rejected(UnexpectedFiles) <==> a.Archive? && a.declared.Keys < a.members.Keys
    ensures r.Rejected? && r.error.TamperedFile? <==> a.Archive? && SameMembers(a) && !Intact(c, a)
    ensures r.Rejected? && r.error.TamperedFile? ==>
      && r.error.path in a.declared && !FileIntact(c, a, r.error.path)
      && forall q :: q in a.declared && !FileIntact(c, a, q) ==> Leq(r.error.path, q)
    ensures r == Rejected(Unsigned) <==> a.Archive? && Intact(c, a) && a.signature.None?
    ensures r == Rejected(RootMismatch) <==>
      a.Archive? && Intact(c, a) && a.signature.Some? && a.signature.value.root != Root(c.hash, a.declared)
    ensures r == Rejected(BadSignature) <==>
      && a.Archive? && Intact(c, a) && a.signature.Some? && a.signature.value.root == Root(c.hash, a.declared)
      && !c.verify(a.signature.value.publicKey, a.signature.value.value, a.signature.value.root)
    ensures r == Rejected(UntrustedKey) <==>
      a.Archive? && Intact(c, a) && Signed(c, a) && !Trusts(c, keys, a.signature.value.publicKey)
    ensures r == Rejected(Revoked) <==>
      && a.Archive? && Intact(c, a) && Signed(c, a) && Trusts(c, keys, a.signature.value.publicKey)
      && revocations.Some? && ListVerifies(c, keys, revocations.value)
      && (a.name, a.version) in revocations.value.revoked
    ensures r.Accepted? ==> a.Archive? && ContentsMatch(c, a) && SignatureVerifies(c, keys, a)
    ensures r.Accepted? && revocations.Some? && ListVerifies(c, keys, revocations.value) ==>
      (a.name, a.version) !in revocations.value.revoked
  {
    hide Root, Leq;
    if a.Malformed? {
      return Rejected(MalformedPackage);
    }
    var missing := a.declared.Keys - a.members.Keys;
    var extra := a.members.Keys - a.declared.Keys;
    if missing != {} {
      return Rejected(MissingFiles);
    }
    assert forall path :: path in a.declared.Keys ==> path in a.members.Keys || path in missing;
    if extra != {} {
      return Rejected(UnexpectedFiles);
    }
    assert SameMembers(a);
    var bad := FirstTampered(c, a);
    if bad.Some? {
      return Rejected(TamperedFile(bad.value));
    }
    if a.signature.None? {
      return Rejected(Unsigned);
    }
    var root := MerkleRoot(c.hash, a.declared);
    if a.signature.value.root != root {
      return Rejected(RootMismatch);
    }
    if !c.verify(a.signature.value.publicKey, a.signature.value.value, root) {
      return Rejected(BadSignature);
    }
    if !Trusts(c, keys, a.signature.value.publicKey) {
      return Rejected(UntrustedKey);
    }
    if revocations.Some? && Honored(c, keys, revocations.value) {
      if (a.name, a.version) in revocations.value.revoked {
        return Rejected(Revoked);
      }
    }
    return Accepted;
  }

  /** The loop over the declared files in path order. */
  method FirstTampered(c: Crypto, a: Archive) returns (bad: Option<Bytes>)
    requires a.Archive? && SameMembers(a)
    ensures bad.None? <==> Intact(c, a)
    ensures bad.Some? ==>
      && bad.value in a.declared && !FileIntact(c, a, bad.value)
      && forall q :: q in a.declared && !FileIntact(c, a, q) ==> Leq(bad.value, q)
  {
    hide Sorted;
    var paths := Sorted(a.declared.Keys);
    for i := 0 to |paths|
      invariant forall j :: 0 <= j < i ==> FileIntact(c, a, paths[j])
    {
      if c.hash(a.members[paths[i]]) != a.declared[paths[i]] {
        forall q | q in a.declared && !FileIntact(c, a, q)
          ensures Leq(paths[i], q)
        {
          assert q in paths;
          var j :| 0 <= j < |paths| && paths[j] == q;
          LeqRefl(q);
        }
        return Some(paths[i]);
      }
    }
    forall path | path in a.declared
      ensures FileIntact(c, a, path)
    {
      assert path in paths;
    }
    return None;
  }

  // -------------------------------------------------------------------- signing

  const MANIFEST_NAME: Bytes := [0x6d, 0x61, 0x6e, 0x69, 0x66, 0x65, 0x73, 0x74, 0x2e, 0x6a, 0x73, 0x6f, 0x6e]
  const SIGNATURE_NAME: Bytes := [0x53, 0x49, 0x47, 0x4e, 0x41, 0x54, 0x55, 0x52, 0x45]

  predicate IsPayload(path: Bytes) {
    path != MANIFEST_NAME && path != SIGNATURE_NAME
  }

  /** The source files that are packaged. */
  function Payload(src: map<Bytes, Bytes>): map<Bytes, Bytes> {
    map path | path in src && IsPayload(path) :: src[path]
  }

  function HashAll(c: Crypto, members: map<Bytes, Bytes>): Files {
    map path | path in members :: c.hash(members[path])
  }

  /** `build_files_map`: the walk visits the files in no particular order. */
  method BuildFilesMap(c: Crypto, src: map<Bytes, Bytes>) returns (files: Files)
    ensures files == HashAll(c, Payload(src))
    ensures forall path :: path in files <==> path in src && IsPayload(path)
    ensures forall path :: path in files ==> files[path] == c.hash(src[path])
  {
    hide IsPayload;
    files := map[];
    var left := src.Keys;
    while left != {}
      invariant left <= src.Keys
      invariant forall path :: path in files <==> path in src && path !in left && IsPayload(path)
      invariant forall path :: path in files ==> files[path] == c.hash(src[path])
      decreases |left|
    {
      var path :| path in left;
      left := left - {path};
      if IsPayload(path) {
        files := files[path := c.hash(src[path])];
      }
    }
  }

  method SignPackage(c: Crypto, src: map<Bytes, Bytes>, name: string, version: string, privateKey: Bytes)
    returns (a: Archive)
    ensures a.Archive? && a.name == name && a.version == version
    ensures a.members == Payload(src) && a.declared == HashAll(c, Payload(src))
    ensures a.signature == Some(Signature(Root(c.hash, a.declared), c.publicOf(privateKey),
                                          c.sign(privateKey, Root(c.hash, a.declared))))
  {
    var files := BuildFilesMap(c, src);
    var root := MerkleRoot(c.hash, files);
    a := Archive(name, version, files, Payload(src),
                 Some(Signature(root, c.publicOf(privateKey), c.sign(privateKey, root))));
  }

  /** Round trip: what the signer writes is accepted by a keystore that holds its key, unless an
      honoured list revokes it; `verify` need only accept this one signature. */
  method SignThenVerify(c: Crypto, src: map<Bytes, Bytes>, name: string, version: string, privateKey: Bytes,
                        keys: Keystore, revocations: Option<Revocations>)
    returns (a: Archive, r: LoadResult)
    requires var root := Root(c.hash, HashAll(c, Payload(src)));
      c.verify(c.publicOf(privateKey), c.sign(privateKey, root), root)
    ensures r.Accepted? <==>
      Trusts(c, keys, c.publicOf(privateKey)) && !IsRevoked(c, keys, revocations, name, version)
    ensures a.Archive? && a.members == Payload(src)
  {
    hide Root;
    a := SignPackage(c, src, name, version, privateKey);
    assert forall path :: path in a.declared ==> FileIntact(c, a, path);
    assert Intact(c, a) && Signed(c, a);
    r := VerifyPackage(c, keys, revocations, a);
  }

  // -------------------------------------------------------------------- binding

  /** Everything hashed when the loader checks the archive. */
  function HashedIn(c: Crypto, a: Archive): set<Bytes>
    requires a.Archive?
  {
    HashedFor(c.hash, a.declared) + a.members.Values
  }

  /** Two archives accepted under the same signed root have the same members with the same contents,
      if the hash has no collision among the strings hashed for them (and no string whose hash is
      the root of the empty set). */
  lemma SignedRootBindsContents(c: Crypto, keys: Keystore, keys': Keystore,
                                r: Option<Revocations>, r': Option<Revocations>, a: Archive, b: Archive)
    requires Acceptable(c, keys, r, a) && Acceptable(c, keys', r', b)
    requires a.signature.value.root == b.signature.value.root
    requires CollisionFree(c.hash, HashedIn(c, a) + HashedIn(c, b))
    requires DigestLength(c.hash, HashedIn(c, a) + HashedIn(c, b))
    requires forall x :: x in HashedIn(c, a) + HashedIn(c, b) ==> c.hash(x) != EMPTY_ROOT
    ensures a.declared == b.declared && a.members == b.members
  {
    hide Root, HashedFor, EMPTY_ROOT;
    var inputs := HashedIn(c, a) + HashedIn(c, b);
    assert HashedFor(c.hash, a.declared) + HashedFor(c.hash, b.declared) <= inputs;
    DeclaredAreDigests(c, a, inputs);
    DeclaredAreDigests(c, b, inputs);
    RootBindsFiles(c.hash, a.declared, b.declared);
    forall path | path in a.members
      ensures path in b.members && a.members[path] == b.members[path]
    {
      assert path in a.declared && path in b.declared;
      assert FileIntact(c, a, path) && FileIntact(c, b, path);
      assert a.members[path] in a.members.Values && b.members[path] in b.members.Values;
    }
    assert a.members.Keys == b.members.Keys;
  }

  lemma DeclaredAreDigests(c: Crypto, a: Archive, inputs: set<Bytes>)
    requires a.Archive? && Intact(c, a) && HashedIn(c, a) <= inputs && DigestLength(c.hash, inputs)
    ensures FileHashes(a.declared)
  {
    hide HashedFor;
    forall path | path in a.declared
      ensures |a.declared[path]| == DIGEST
    {
      assert FileIntact(c, a, path);
      assert a.members[path] in a.members.Values;
    }
  }

  /** The signature covers the file map only: an archive that some loader accepts is accepted under any
      other name and version exactly if an honoured list does not revoke that pair. */
  lemma NameIsNotSigned(c: Crypto, keys: Keystore, r: Option<Revocations>, a: Archive, r': Option<Revocations>,
                        name: string, version: string)
    requires Acceptable(c, keys, r, a)
    ensures Acceptable(c, keys, r', a.(name := name, version := version)) <==> !IsRevoked(c, keys, r', name, version)
  {
    hide Root, Trusts, Honored;
  }
}
