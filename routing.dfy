/**
  Identities, names, authorities and section snapshots: the types the two
  modelled files take from the rest of the crate (`id`, `routing_table`,
  `chain`). Their definitions live outside the modelled files, so only the
  fields these files use are kept. Each type that `NetworkEvent`'s derived
  order compares has an `Encode` into `DerivedOrd.Term`; the order a type gets
  from it is the derived one on the fields kept here.
*/
module Routing {
  import opened DerivedOrd

  /** A 256-bit XOR-space name. A fixed-size byte array compares like the
      unsigned number its bytes spell, so a name is that number. */
  type XorName = nat

  /** A SHA3-256 digest, compared like a name. */
  type Digest256 = nat

  /** A node's public identity. `name` is the XOR name derived from the
      signing key (the hash is not modelled); `key` stands for the keys. */
  datatype PublicId = PublicId(name: XorName, key: nat) {
    function Encode(): Term
    {
      Node(0, [Atom(name), Atom(key)])
    }
  }

  /** A full identity: the public identity and the private signing key. */
  datatype FullId = FullId(publicId: PublicId, signingKey: nat)

  /** A detached signature; `into_bytes` is `bytes`. */
  datatype Signature = Signature(bytes: seq<bv8>)

  /** A prefix of the XOR space: the first `bitCount` bits of `name`. */
  datatype Prefix = Prefix(bitCount: nat, name: XorName) {
    function Encode(): Term
    {
      Node(0, [Atom(bitCount), Atom(name)])
    }
  }

  /** A routing target, with the variants in their declaration order. */
  datatype Authority =
    | ClientManager(name: XorName)
    | NaeManager(name: XorName)
    | NodeManager(name: XorName)
    | Section(name: XorName)
    | PrefixSection(prefix: Prefix)
    | ManagedNode(name: XorName)
    | Client(clientId: PublicId, proxyNodeName: XorName)
  {
    function Encode(): Term
    {
      match this
      case ClientManager(n) => Node(0, [Atom(n)])
      case NaeManager(n) => Node(1, [Atom(n)])
      case NodeManager(n) => Node(2, [Atom(n)])
      case Section(n) => Node(3, [Atom(n)])
      case PrefixSection(p) => Node(4, [p.Encode()])
      case ManagedNode(n) => Node(5, [Atom(n)])
      case Client(id, proxy) => Node(6, [id.Encode(), Atom(proxy)])
    }
  }

  /** A section-membership snapshot. Its members and chain links are defined
      outside the modelled files; it is represented by its version, its
      prefix and its hash. */
  datatype SectionInfo = SectionInfo(version: nat, prefix: Prefix, hash: Digest256) {
    function Encode(): Term
    {
      Node(0, [Atom(version), prefix.Encode(), Atom(hash)])
    }
  }

  /** One link of a proof chain towards a neighbour section, represented by
      the digest it carries. */
  datatype ProvingSection = ProvingSection(hash: Digest256) {
    function Encode(): Term
    {
      Node(0, [Atom(hash)])
    }
  }

  /** The endorsing signatures over a successor claim. */
  datatype ProofSet = ProofSet(signatures: map<PublicId, Signature>)

  /** `RoutingError`, reduced to the cases the modelled files raise or match on. */
  datatype RoutingError =
    | InvalidStateForOperation
    | UnknownConnection(peer: PublicId)
    | FilterCheckFailed
    | ProxyConnectionNotFound
    | SerialisationFailed
    | OtherError(code: nat)

  /** `InterfaceError`, returned to the user of the library through a channel. */
  datatype InterfaceError = InvalidState

  /** The agreed genesis snapshot handed to a newly approved node. */
  datatype GenesisPfxInfo = GenesisPfxInfo(firstInfo: SectionInfo, latestInfo: SectionInfo)

  lemma PublicIdEncodeInjective(a: PublicId, b: PublicId)
    ensures a.Encode() == b.Encode() ==> a == b
  {
    if a.Encode() == b.Encode() {
      assert a.Encode().fields[0] == b.Encode().fields[0];
      assert a.Encode().fields[1] == b.Encode().fields[1];
    }
  }

  lemma PrefixEncodeInjective(a: Prefix, b: Prefix)
    ensures a.Encode() == b.Encode() ==> a == b
  {
    if a.Encode() == b.Encode() {
      assert a.Encode().fields[0] == b.Encode().fields[0];
      assert a.Encode().fields[1] == b.Encode().fields[1];
    }
  }

  lemma AuthorityEncodeInjective(a: Authority, b: Authority)
    ensures a.Encode() == b.Encode() ==> a == b
  {
    if a.Encode() == b.Encode() {
      assert a.Encode().fields[0] == b.Encode().fields[0];
      if a.PrefixSection? {
        PrefixEncodeInjective(a.prefix, b.prefix);
      } else if a.Client? {
        assert a.Encode().fields[1] == b.Encode().fields[1];
        PublicIdEncodeInjective(a.clientId, b.clientId);
      }
    }
  }

  lemma SectionInfoEncodeInjective(a: SectionInfo, b: SectionInfo)
    ensures a.Encode() == b.Encode() ==> a == b
  {
    if a.Encode() == b.Encode() {
      assert a.Encode().fields[0] == b.Encode().fields[0];
      assert a.Encode().fields[1] == b.Encode().fields[1];
      assert a.Encode().fields[2] == b.Encode().fields[2];
      PrefixEncodeInjective(a.prefix, b.prefix);
    }
  }

  lemma ProvingSectionEncodeInjective(a: ProvingSection, b: ProvingSection)
    ensures a.Encode() == b.Encode() ==> a == b
  {
    if a.Encode() == b.Encode() {
      assert a.Encode().fields[0] == b.Encode().fields[0];
    }
  }
}
