/**
 * The signaling packet catalog: the five packet kinds exchanged over the
 * signaling channel, their wire type values and the payload fields each
 * one declares for serialization.
 */
module Protocol {
  import opened Wrappers

  /** The wire value of a packet type (`net::PacketType`). */
  newtype PacketType = x: int | 0 <= x

  const SuccessPt: PacketType := 0x00
  const ErrorPt: PacketType := 0x01
  const SessionDescriptionPt: PacketType := 0x02
  const CandidatePt: PacketType := 0x03
  const GatheringDonePt: PacketType := 0x04

  /** The name of the one payload field the description-carrying packets declare. */
  const DescField: string := "desc"

  /** A signaling packet together with the values of its payload fields. */
  datatype Packet =
    | Success
    | Error
    | SessionDescription(desc: string)
    | Candidate(desc: string)
    | GatheringDone

  /** True for the wire values that name one of the five packet kinds. */
  predicate IsKnownType(pt: PacketType) {
    pt == SuccessPt || pt == ErrorPt || pt == SessionDescriptionPt
    || pt == CandidatePt || pt == GatheringDonePt
  }

  /** The `pt` constant of the struct a packet is an instance of. */
  function TypeOf(p: Packet): (pt: PacketType)
    ensures IsKnownType(pt)
    ensures pt == SuccessPt <==> p.Success?
    ensures pt == ErrorPt <==> p.Error?
    ensures pt == SessionDescriptionPt <==> p.SessionDescription?
    ensures pt == CandidatePt <==> p.Candidate?
    ensures pt == GatheringDonePt <==> p.GatheringDone?
  {
    match p
    case Success => SuccessPt
    case Error => ErrorPt
    case SessionDescription(_) => SessionDescriptionPt
    case Candidate(_) => CandidatePt
    case GatheringDone => GatheringDonePt
  }

  /** The names of the serialized fields the struct of a packet type declares, in order. */
  function FieldNames(pt: PacketType): seq<string> {
    if pt == SessionDescriptionPt || pt == CandidatePt then [DescField] else []
  }

  /** The values of a packet's serialized fields, in declaration order. */
  function Fields(p: Packet): (fs: seq<string>)
    ensures |fs| == |FieldNames(TypeOf(p))|
    ensures p.SessionDescription? || p.Candidate? ==> fs == [p.desc]
  {
    match p
    case SessionDescription(d) => [d]
    case Candidate(d) => [d]
    case _ => []
  }

  /**
   * Builds the packet of type `pt` from the values of its fields; None when
   * `pt` names no packet kind or the number of values does not match the
   * fields the kind declares.
   */
  function FromFields(pt: PacketType, fs: seq<string>): (r: Option<Packet>)
    ensures r.Some? <==> IsKnownType(pt) && |fs| == |FieldNames(pt)|
    ensures r.Some? ==> TypeOf(r.value) == pt && Fields(r.value) == fs
  {
    if |fs| != |FieldNames(pt)| then None
    else if pt == SuccessPt then Some(Success)
    else if pt == ErrorPt then Some(Error)
    else if pt == SessionDescriptionPt then Some(SessionDescription(fs[0]))
    else if pt == CandidatePt then Some(Candidate(fs[0]))
    else if pt == GatheringDonePt then Some(GatheringDone)
    else None
  }

  /** A packet is recovered from its type and field values. */
  lemma FieldsRoundTrip(p: Packet)
    ensures FromFields(TypeOf(p), Fields(p)) == Some(p)
  {
  }

  /** The five wire values are pairwise distinct: one table slot per kind. */
  lemma TypesDistinct()
    ensures |{SuccessPt, ErrorPt, SessionDescriptionPt, CandidatePt, GatheringDonePt}| == 5
  {
  }

  /** SessionDescription and Candidate carry exactly the one field `desc`; the others carry none. */
  lemma PayloadShapes()
    ensures FieldNames(SessionDescriptionPt) == [DescField]
    ensures FieldNames(CandidatePt) == [DescField]
    ensures FieldNames(SuccessPt) == [] && FieldNames(ErrorPt) == [] && FieldNames(GatheringDonePt) == []
  {
  }
}
