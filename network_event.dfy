/**
  The consensus facts a section agrees on (`NetworkEvent`), their derived total
  order, and the three functions over them: the successor-proof check, the
  projection onto the carried snapshot and the mapping into parsec
  observations.
*/
module Chain {
  import opened Wrappers
  import opened DerivedOrd
  import opened Routing

  /** The network events, with the variants in their declaration order. */
  datatype NetworkEvent =
    | Online(id: PublicId, auth: Authority)
    | Offline(id: PublicId)
    | OurMerge
    | NeighbourMerge(digest: Digest256)
    | SectionInfo(info: Routing.SectionInfo)
    /** The chain of proofs leading to a neighbour section, with that section's snapshot. */
    | ProvingSections(sections: seq<ProvingSection>, info: Routing.SectionInfo)

  /** The position of the event's variant in the declaration. */
  function Rank(e: NetworkEvent): nat
  {
    match e
    case Online(_, _) => 0
    case Offline(_) => 1
    case OurMerge => 2
    case NeighbourMerge(_) => 3
    case SectionInfo(_) => 4
    case ProvingSections(_, _) => 5
  }

  /** A vector of proving sections as the derived order sees it. */
  function EncodeAll(ps: seq<ProvingSection>): (ts: seq<Term>)
    ensures |ts| == |ps|
    ensures forall i :: 0 <= i < |ps| ==> ts[i] == ps[i].Encode()
  {
    if ps == [] then [] else [ps[0].Encode()] + EncodeAll(ps[1..])
  }

  /** An event as the derived order sees it: its rank, then its fields. */
  function Encode(e: NetworkEvent): Term
  {
    match e
    case Online(id, auth) => Node(Rank(e), [id.Encode(), auth.Encode()])
    case Offline(id) => Node(Rank(e), [id.Encode()])
    case OurMerge => Node(Rank(e), [])
    case NeighbourMerge(d) => Node(Rank(e), [Atom(d)])
    case SectionInfo(si) => Node(Rank(e), [si.Encode()])
    case ProvingSections(ps, si) => Node(Rank(e), [Node(0, EncodeAll(ps)), si.Encode()])
  }

  /** `Ord::cmp` as derived for `NetworkEvent`. */
  function Compare(a: NetworkEvent, b: NetworkEvent): Ordering
  {
    Cmp(Encode(a), Encode(b))
  }

  predicate Before(a: NetworkEvent, b: NetworkEvent)
  {
    Compare(a, b) == Less
  }

  /** The order compares vectors of proving sections element by element. */
  function CompareSections(ps: seq<ProvingSection>, qs: seq<ProvingSection>): Ordering
  {
    CmpSeq(EncodeAll(ps), EncodeAll(qs))
  }

  lemma {:induction false} EncodeAllInjective(ps: seq<ProvingSection>, qs: seq<ProvingSection>)
    ensures EncodeAll(ps) == EncodeAll(qs) ==> ps == qs
  {
    if EncodeAll(ps) == EncodeAll(qs) {
      assert |ps| == |qs|;
      forall i | 0 <= i < |ps|
        ensures ps[i] == qs[i]
      {
        assert EncodeAll(ps)[i] == EncodeAll(qs)[i];
        ProvingSectionEncodeInjective(ps[i], qs[i]);
      }
    }
  }

  /** Distinct events have distinct encodings, so the derived order
      distinguishes every pair of distinct events. */
  lemma EncodeInjective(a: NetworkEvent, b: NetworkEvent)
    ensures Encode(a) == Encode(b) ==> a == b
  {
    if Encode(a) == Encode(b) {
      var ea, eb := Encode(a), Encode(b);
      assert Rank(a) == ea.tag == eb.tag == Rank(b);
      match a
      case Online(id, auth) =>
        assert ea.fields[0] == eb.fields[0] && ea.fields[1] == eb.fields[1];
        PublicIdEncodeInjective(id, b.id);
        AuthorityEncodeInjective(auth, b.auth);
      case Offline(id) =>
        assert ea.fields[0] == eb.fields[0];
        PublicIdEncodeInjective(id, b.id);
      case OurMerge =>
      case NeighbourMerge(d) =>
        assert ea.fields[0] == eb.fields[0];
      case SectionInfo(si) =>
        assert ea.fields[0] == eb.fields[0];
        SectionInfoEncodeInjective(si, b.info);
      case ProvingSections(ps, si) =>
        assert ea.fields[0] == eb.fields[0] && ea.fields[1] == eb.fields[1];
        EncodeAllInjective(ps, b.sections);
        SectionInfoEncodeInjective(si, b.info);
    }
  }

  /** The derived order on events is a strict total order, and `Compare`
      answers `Equal` exactly on equal events. */
  lemma OrderIsStrictTotal(a: NetworkEvent, b: NetworkEvent, c: NetworkEvent)
    ensures Compare(a, b) == Equal <==> a == b
    ensures Compare(b, a) == Compare(a, b).Reverse()
    ensures !Before(a, a)
    ensures Before(a, b) && Before(b, c) ==> Before(a, c)
    ensures a == b || Before(a, b) || Before(b, a)
  {
    CmpEqual(Encode(a), Encode(b));
    EncodeInjective(a, b);
    CmpReverse(Encode(a), Encode(b));
    StrictTotalOrder(Encode(a), Encode(b), Encode(c));
  }

  /** Events of different variants compare by variant position alone:
      Online < Offline < OurMerge < NeighbourMerge < SectionInfo < ProvingSections. */
  lemma RankFirst(a: NetworkEvent, b: NetworkEvent)
    requires Rank(a) != Rank(b)
    ensures Compare(a, b) == CmpNat(Rank(a), Rank(b))
    ensures Before(a, b) <==> Rank(a) < Rank(b)
  {
  }

  /** Events of the same variant compare field by field, the first field
      that differs deciding. */
  lemma SameVariantFieldwise(a: NetworkEvent, b: NetworkEvent)
    requires Rank(a) == Rank(b)
    ensures a.Online? ==>
      Compare(a, b) == Then(Cmp(a.id.Encode(), b.id.Encode()), Cmp(a.auth.Encode(), b.auth.Encode()))
    ensures a.Offline? ==> Compare(a, b) == Cmp(a.id.Encode(), b.id.Encode())
    ensures a.OurMerge? ==> Compare(a, b) == Equal
    ensures a.NeighbourMerge? ==> Compare(a, b) == CmpNat(a.digest, b.digest)
    ensures a.SectionInfo? ==> Compare(a, b) == Cmp(a.info.Encode(), b.info.Encode())
    ensures a.ProvingSections? ==>
      Compare(a, b) == Then(CompareSections(a.sections, b.sections), Cmp(a.info.Encode(), b.info.Encode()))
  {
    match a
    case Online(id, auth) => CmpSeqTwo(id.Encode(), auth.Encode(), b.id.Encode(), b.auth.Encode());
    case Offline(id) => CmpSeqOne(id.Encode(), b.id.Encode());
    case OurMerge =>
    case NeighbourMerge(d) => CmpSeqOne(Atom(d), Atom(b.digest));
    case SectionInfo(si) => CmpSeqOne(si.Encode(), b.info.Encode());
    case ProvingSections(ps, si) =>
      CmpSeqTwo(Node(0, EncodeAll(ps)), si.Encode(), Node(0, EncodeAll(b.sections)), b.info.Encode());
  }

  /** `proves_successor_info`: only a `SectionInfo` event can prove that
      `theirSi` is its successor, and it does so exactly when its snapshot's
      own `proves_successor` (defined outside the modelled files, hence a
      parameter) accepts `theirSi` with `proofs`. */
  function ProvesSuccessorInfo(
    e: NetworkEvent, theirSi: Routing.SectionInfo, proofs: ProofSet,
    provesSuccessor: (Routing.SectionInfo, Routing.SectionInfo, ProofSet) -> bool): (r: bool)
    ensures !e.SectionInfo? ==> !r
    ensures e.SectionInfo? ==> (r <==> provesSuccessor(e.info, theirSi, proofs))
  {
    match e
    case SectionInfo(selfSi) => provesSuccessor(selfSi, theirSi, proofs)
    case _ => false
  }

  /** `section_info`: the snapshot of a `SectionInfo` event, and nothing for
      every other event, `ProvingSections` included although it carries one. */
  function SectionInfoOf(e: NetworkEvent): (r: Option<Routing.SectionInfo>)
    ensures r.Some? <==> e.SectionInfo?
    ensures r.Some? ==> e == NetworkEvent.SectionInfo(r.value)
  {
    match e
    case SectionInfo(selfSi) => Some(selfSi)
    case _ => None
  }

  /** The successor check succeeds exactly through the projected snapshot. */
  lemma ProvesSuccessorThroughProjection(
    e: NetworkEvent, theirSi: Routing.SectionInfo, proofs: ProofSet,
    provesSuccessor: (Routing.SectionInfo, Routing.SectionInfo, ProofSet) -> bool)
    ensures ProvesSuccessorInfo(e, theirSi, proofs, provesSuccessor) <==>
      match SectionInfoOf(e)
      case Some(si) => provesSuccessor(si, theirSi, proofs)
      case None => false
  {
  }

  /** A parsec observation, specialised to network events and public ids. */
  datatype Observation =
    | Add(peerId: PublicId, relatedInfo: seq<bv8>)
    | Remove(peerId: PublicId, relatedInfo: seq<bv8>)
    | OpaquePayload(payload: NetworkEvent)

  /** `into_obs`: `Online` becomes an `Add` carrying the serialised authority,
      `Offline` a `Remove` with empty related info, anything else an opaque
      payload holding the event itself. Only serialising the authority can
      fail. `serialise` is the codec, which is not part of this model. */
  function IntoObs(e: NetworkEvent, serialise: Authority -> Option<seq<bv8>>): (r: Result<Observation, RoutingError>)
    ensures r.Err? <==> e.Online? && serialise(e.auth).None?
    ensures r.Err? ==> r.error == SerialisationFailed
    ensures e.Online? && r.Ok? ==> r.value == Add(e.id, serialise(e.auth).value)
    ensures e.Offline? ==> r == Ok(Remove(e.id, []))
    ensures !e.Online? && !e.Offline? ==> r == Ok(OpaquePayload(e))
  {
    match e
    case Online(id, auth) =>
      (match serialise(auth)
       case Some(bytes) => Ok(Add(id, bytes))
       case None => Err(SerialisationFailed))
    case Offline(id) => Ok(Remove(id, []))
    case _ => Ok(OpaquePayload(e))
  }

  /** When the codec is injective, distinct events never turn into the same
      observation: agreeing on observations is agreeing on events. */
  lemma IntoObsInjective(a: NetworkEvent, b: NetworkEvent, serialise: Authority -> Option<seq<bv8>>)
    requires forall x, y :: serialise(x).Some? && serialise(x) == serialise(y) ==> x == y
    ensures IntoObs(a, serialise).Ok? && IntoObs(a, serialise) == IntoObs(b, serialise) ==> a == b
  {
  }

  /** Only `Online` and `Offline` reach parsec's membership primitives. */
  lemma MembershipObservationsComeFromMembershipEvents(e: NetworkEvent, serialise: Authority -> Option<seq<bv8>>)
    ensures IntoObs(e, serialise).Ok? && IntoObs(e, serialise).value.Add? ==> e.Online?
    ensures IntoObs(e, serialise).Ok? && IntoObs(e, serialise).value.Remove? ==> e.Offline?
    ensures IntoObs(e, serialise).Ok? && IntoObs(e, serialise).value.OpaquePayload? ==>
      IntoObs(e, serialise).value.payload == e
  {
  }
}
