/**
 The ASN.1 module of 3GPP TS 33.128 as far as the records here use it: the components and tags of
 its SEQUENCEs and CHOICEs and the restrictions on its simple types, and the proof that records,
 tags and restrictions of the encoder are the module's.
 */
module PayloadModule {
  import opened Wrappers
  import opened Der
  import opened Schema
  import opened SchemaProperties
  import opened Constraints
  import opened Xiri
  import Records
  import GoType
  import GoField

  // ------------------------------------------------------------------ components and tags

  /** A component of a SEQUENCE: which it is, its tag and the type it names. */
  datatype Component =
    | Mandatory(member: GoField.Name, tag: nat, kind: GoType.Name)
    | Optional(member: GoField.Name, tag: nat, kind: GoType.Name)

  /** The name of what a member holds, through pointers and lists. */
  function KindOf(ty: Ty): GoType.Name
    decreases ty
  {
    match ty
    case TPtr(to) => KindOf(to)
    case TList(elem) => KindOf(elem)
    case _ => ty.name
  }

  function Outline(f: Field): Component {
    if f.optional then Optional(f.name, f.tag, KindOf(f.ty)) else Mandatory(f.name, f.tag, KindOf(f.ty))
  }

  predicate FollowsModule(fields: seq<Field>, components: seq<Component>) {
    |fields| == |components| && forall i :: 0 <= i < |fields| ==> Outline(fields[i]) == components[i]
  }

  lemma {:induction false} ListsHold()
    ensures KindOf(Records.TAIList) == GoType.TAI && KindOf(Records.UEEndpoints) == GoType.UEEndpointAddress
    ensures KindOf(TList(Records.FiveGSSubscriberID)) == GoType.FiveGSSubscriberID
  {
    assert KindOf(Records.TAI) == GoType.TAI;
    assert KindOf(Records.UEEndpointAddress) == GoType.UEEndpointAddress;
    assert KindOf(Records.FiveGSSubscriberID) == GoType.FiveGSSubscriberID;
  }

  lemma {:induction false} SNSSAIFollowsModule()
    ensures FollowsModule(Records.SNSSAI.fields,
      [Mandatory(GoField.SliceServiceType, 1, GoType.SliceServiceType),
        Optional(GoField.SliceDifferentiator, 2, GoType.SliceDifferentiator),
        Optional(GoField.MappedHPLMNSST, 3, GoType.SliceServiceType),
        Optional(GoField.MappedHPLMNSD, 4, GoType.SliceDifferentiator)])
  {
  }

  lemma {:induction false} FTEIDFollowsModule()
    ensures FollowsModule(Records.FTEID.fields,
      [Mandatory(GoField.TEID, 1, GoType.TEID), Optional(GoField.IPv4Address, 2, GoType.IPv4Address),
        Optional(GoField.IPv6Address, 3, GoType.IPv6Address)])
  {
  }

  lemma {:induction false} FiveGSGTPTunnelsFollowsModule()
    ensures FollowsModule(Records.FiveGSGTPTunnels.fields,
      [Optional(GoField.ULNGUUPTunnelInformation, 1, GoType.FTEID)])
  {
  }

  lemma {:induction false} GTPTunnelInfoFollowsModule()
    ensures FollowsModule(Records.GTPTunnelInfo.fields,
      [Optional(GoField.FiveGSGTPTunnels, 1, GoType.FiveGSGTPTunnels)])
  {
  }

  lemma {:induction false} LocationInfoFollowsModule()
    ensures FollowsModule(Records.LocationInfo.fields,
      [Optional(GoField.CurrentLocation, 2, GoType.Bool)])
  {
  }

  lemma {:induction false} LocationFollowsModule()
    ensures FollowsModule(Records.Location.fields,
      [Optional(GoField.LocationInfo, 1, GoType.LocationInfo)])
  {
  }

  lemma {:induction false} FiveGSSubscriberIDsFollowsModule()
    ensures FollowsModule(Records.FiveGSSubscriberIDs.fields,
      [Mandatory(GoField.IDs, 1, GoType.FiveGSSubscriberID)])
  {
    ListsHold();
  }

  lemma {:induction false} UserIdentifiersFollowsModule()
    ensures FollowsModule(Records.UserIdentifiers.fields,
      [Optional(GoField.FiveGS, 1, GoType.FiveGSSubscriberIDs)])
  {
  }

  lemma {:induction false} PDUSessionResourceInformationFollowsModule()
    ensures FollowsModule(Records.PDUSessionResourceInformation.fields,
      [Mandatory(GoField.PDUSessionID, 1, GoType.PDUSessionID)])
  {
  }

  lemma {:induction false} FiveGGUTIFollowsModule()
    ensures FollowsModule(Records.FiveGGUTI.fields,
      [Mandatory(GoField.MCC, 1, GoType.MCC), Mandatory(GoField.MNC, 2, GoType.MNC),
        Mandatory(GoField.AMFRegionID, 3, GoType.AMFRegionID),
        Mandatory(GoField.AMFSetID, 4, GoType.AMFSetID), Mandatory(GoField.AMFPointer, 5, GoType.AMFPointer),
        Mandatory(GoField.FiveGTMSI, 6, GoType.FiveGTMSI)])
  {
  }

  lemma {:induction false} SUCIFollowsModule()
    ensures FollowsModule(Records.SUCI.fields,
      [Mandatory(GoField.MCC, 1, GoType.MCC), Mandatory(GoField.MNC, 2, GoType.MNC),
        Mandatory(GoField.RoutingIndicator, 3, GoType.RoutingIndicator),
        Mandatory(GoField.ProtectionSchemeID, 4, GoType.ProtectionSchemeID),
        Mandatory(GoField.HomeNetworkPublicKeyID, 5, GoType.HomeNetworkPublicKeyID),
        Mandatory(GoField.SchemeOutput, 6, GoType.SchemeOutput),
        Optional(GoField.RoutingIndicatorLength, 7, GoType.RoutingIndicatorLength),
        Optional(GoField.SUPIType, 8, GoType.SUPIType),
        Optional(GoField.HomeNetworkIdentifier, 9, GoType.HomeNetworkIdentifier)])
  {
  }

  lemma {:induction false} PLMNIDFollowsModule()
    ensures FollowsModule(Records.PLMNID.fields,
      [Mandatory(GoField.MCC, 1, GoType.MCC), Mandatory(GoField.MNC, 2, GoType.MNC)])
  {
  }

  lemma {:induction false} TAIFollowsModule()
    ensures FollowsModule(Records.TAI.fields,
      [Mandatory(GoField.PLMNID, 1, GoType.PLMNID), Mandatory(GoField.TAC, 2, GoType.TAC),
        Optional(GoField.NID, 3, GoType.NID)])
  {
  }

  lemma {:induction false} SMFServingNetworkFollowsModule()
    ensures FollowsModule(Records.SMFServingNetwork.fields,
      [Mandatory(GoField.PLMNID, 1, GoType.PLMNID), Optional(GoField.NID, 2, GoType.NID)])
  {
  }

  lemma {:induction false} AMFIDFollowsModule()
    ensures FollowsModule(Records.AMFID.fields,
      [Mandatory(GoField.AMFRegionID, 1, GoType.AMFRegionID),
        Mandatory(GoField.AMFSetID, 2, GoType.AMFSetID), Mandatory(GoField.AMFPointer, 3, GoType.AMFPointer)])
  {
  }

  lemma {:induction false} AMFRegistrationFollowsModule()
    ensures FollowsModule(Records.AMFRegistration.fields,
      [Mandatory(GoField.RegistrationType, 1, GoType.AMFRegistrationType),
        Mandatory(GoField.RegistrationResult, 2, GoType.AMFRegistrationResult),
        Mandatory(GoField.SUPI, 4, GoType.SUPI), Optional(GoField.SUCI, 5, GoType.SUCI),
        Optional(GoField.PEI, 6, GoType.PEI), Optional(GoField.GPSI, 7, GoType.GPSI),
        Mandatory(GoField.GUTI, 8, GoType.FiveGGUTI), Optional(GoField.FiveGSTAIList, 11, GoType.TAI),
        Optional(GoField.RATType, 18, GoType.RATType)])
  {
    ListsHold();
  }

  lemma {:induction false} AMFDeregistrationFollowsModule()
    ensures FollowsModule(Records.AMFDeregistration.fields,
      [Mandatory(GoField.DeregistrationDirection, 1, GoType.AMFDirection),
        Mandatory(GoField.AccessType, 2, GoType.AccessType), Optional(GoField.SUPI, 3, GoType.SUPI),
        Optional(GoField.SUCI, 4, GoType.SUCI), Optional(GoField.PEI, 5, GoType.PEI),
        Optional(GoField.GPSI, 6, GoType.GPSI), Optional(GoField.GUTI, 7, GoType.FiveGGUTI)])
  {
  }

  lemma {:induction false} AMFStartOfInterceptionWithRegisteredUEFollowsModule()
    ensures FollowsModule(Records.AMFStartOfInterceptionWithRegisteredUE.fields,
      [Mandatory(GoField.RegistrationResult, 1, GoType.AMFRegistrationResult),
        Optional(GoField.RegistrationType, 2, GoType.AMFRegistrationType),
        Mandatory(GoField.SUPI, 4, GoType.SUPI), Optional(GoField.SUCI, 5, GoType.SUCI),
        Optional(GoField.PEI, 6, GoType.PEI), Optional(GoField.GPSI, 7, GoType.GPSI),
        Mandatory(GoField.GUTI, 8, GoType.FiveGGUTI), Optional(GoField.FiveGSTAIList, 12, GoType.TAI)])
  {
    ListsHold();
  }

  lemma {:induction false} SMFPDUSessionEstablishmentFollowsModule()
    ensures FollowsModule(Records.SMFPDUSessionEstablishment.fields,
      [Optional(GoField.SUPI, 1, GoType.SUPI),
        Optional(GoField.SUPIUnauthenticated, 2, GoType.SUPIUnauthenticatedIndication),
        Optional(GoField.PEI, 3, GoType.PEI), Optional(GoField.GPSI, 4, GoType.GPSI),
        Mandatory(GoField.PDUSessionID, 5, GoType.PDUSessionID),
        Mandatory(GoField.GTPTunnelID, 6, GoType.FTEID),
        Mandatory(GoField.PDUSessionType, 7, GoType.PDUSessionType),
        Optional(GoField.SNSSAI, 8, GoType.SNSSAI),
        Optional(GoField.UEEndpoint, 9, GoType.UEEndpointAddress), Mandatory(GoField.DNN, 12, GoType.DNN),
        Optional(GoField.AMFID, 13, GoType.AMFID),
        Mandatory(GoField.RequestType, 15, GoType.FiveGSMRequestType),
        Optional(GoField.AccessType, 16, GoType.AccessType), Optional(GoField.RATType, 17, GoType.RATType),
        Optional(GoField.ServingNetwork, 22, GoType.SMFServingNetwork),
        Optional(GoField.GTPTunnelInfo, 25, GoType.GTPTunnelInfo)])
  {
    ListsHold();
  }

  lemma {:induction false} SMFPDUSessionModificationFollowsModule()
    ensures FollowsModule(Records.SMFPDUSessionModification.fields,
      [Optional(GoField.SUPI, 1, GoType.SUPI),
        Optional(GoField.SUPIUnauthenticated, 2, GoType.SUPIUnauthenticatedIndication),
        Optional(GoField.PEI, 3, GoType.PEI), Optional(GoField.GPSI, 4, GoType.GPSI),
        Optional(GoField.SNSSAI, 5, GoType.SNSSAI),
        Mandatory(GoField.RequestType, 8, GoType.FiveGSMRequestType),
        Optional(GoField.AccessType, 9, GoType.AccessType), Optional(GoField.RATType, 10, GoType.RATType),
        Optional(GoField.PDUSessionID, 11, GoType.PDUSessionID),
        Optional(GoField.UEEndpoint, 13, GoType.UEEndpointAddress),
        Optional(GoField.ServingNetwork, 14, GoType.SMFServingNetwork),
        Optional(GoField.GTPTunnelInfo, 16, GoType.GTPTunnelInfo)])
  {
    ListsHold();
  }

  lemma {:induction false} SMFPDUSessionReleaseFollowsModule()
    ensures FollowsModule(Records.SMFPDUSessionRelease.fields,
      [Mandatory(GoField.SUPI, 1, GoType.SUPI), Optional(GoField.PEI, 2, GoType.PEI),
        Optional(GoField.GPSI, 3, GoType.GPSI), Mandatory(GoField.PDUSessionID, 4, GoType.PDUSessionID),
        Optional(GoField.UplinkVolume, 7, GoType.Int64), Optional(GoField.DownlinkVolume, 8, GoType.Int64)])
  {
  }

  lemma {:induction false} AMFLocationUpdateFollowsModule()
    ensures FollowsModule(Records.AMFLocationUpdate.fields,
      [Mandatory(GoField.SUPI, 1, GoType.SUPI), Optional(GoField.SUCI, 2, GoType.SUCI),
        Optional(GoField.PEI, 3, GoType.PEI), Optional(GoField.GPSI, 4, GoType.GPSI),
        Optional(GoField.GUTI, 5, GoType.FiveGGUTI), Mandatory(GoField.Location, 6, GoType.Location)])
  {
  }

  lemma {:induction false} AMFUnsuccessfulProcedureFollowsModule()
    ensures FollowsModule(Records.AMFUnsuccessfulProcedure.fields,
      [Mandatory(GoField.FailedProcedureType, 1, GoType.AMFFailedProcedureType),
        Mandatory(GoField.FailureCause, 2, GoType.AMFFailureCause), Optional(GoField.SUPI, 4, GoType.SUPI),
        Optional(GoField.SUCI, 5, GoType.SUCI), Optional(GoField.PEI, 6, GoType.PEI),
        Optional(GoField.GPSI, 7, GoType.GPSI), Optional(GoField.GUTI, 8, GoType.FiveGGUTI),
        Optional(GoField.Location, 9, GoType.Location)])
  {
  }

  lemma {:induction false} AMFIdentifierAssociationFollowsModule()
    ensures FollowsModule(Records.AMFIdentifierAssociation.fields,
      [Mandatory(GoField.SUPI, 1, GoType.SUPI), Optional(GoField.SUCI, 2, GoType.SUCI),
        Optional(GoField.PEI, 3, GoType.PEI), Optional(GoField.GPSI, 4, GoType.GPSI),
        Mandatory(GoField.GUTI, 5, GoType.FiveGGUTI), Mandatory(GoField.Location, 6, GoType.Location),
        Optional(GoField.FiveGSTAIList, 7, GoType.TAI)])
  {
    ListsHold();
  }

  lemma {:induction false} AMFIdentifierDeassociationFollowsModule()
    ensures FollowsModule(Records.AMFIdentifierDeassociation.fields,
      [Mandatory(GoField.SUPI, 1, GoType.SUPI), Optional(GoField.SUCI, 2, GoType.SUCI),
        Optional(GoField.PEI, 3, GoType.PEI), Optional(GoField.GPSI, 4, GoType.GPSI),
        Mandatory(GoField.GUTI, 5, GoType.FiveGGUTI)])
  {
  }

  lemma {:induction false} SMFStartOfInterceptionWithEstablishedPDUSessionFollowsModule()
    ensures FollowsModule(Records.SMFStartOfInterceptionWithEstablishedPDUSession.fields,
      [Optional(GoField.SUPI, 1, GoType.SUPI),
        Optional(GoField.SUPIUnauthenticated, 2, GoType.SUPIUnauthenticatedIndication),
        Optional(GoField.PEI, 3, GoType.PEI), Optional(GoField.GPSI, 4, GoType.GPSI),
        Mandatory(GoField.PDUSessionID, 5, GoType.PDUSessionID),
        Mandatory(GoField.GTPTunnelID, 6, GoType.FTEID),
        Mandatory(GoField.PDUSessionType, 7, GoType.PDUSessionType),
        Optional(GoField.SNSSAI, 8, GoType.SNSSAI),
        Mandatory(GoField.UEEndpoint, 9, GoType.UEEndpointAddress), Mandatory(GoField.DNN, 12, GoType.DNN),
        Optional(GoField.AMFID, 13, GoType.AMFID),
        Mandatory(GoField.RequestType, 15, GoType.FiveGSMRequestType),
        Optional(GoField.AccessType, 16, GoType.AccessType), Optional(GoField.RATType, 17, GoType.RATType),
        Optional(GoField.ServingNetwork, 22, GoType.SMFServingNetwork),
        Optional(GoField.GTPTunnelInfo, 23, GoType.GTPTunnelInfo)])
  {
    ListsHold();
  }

  lemma {:induction false} SMFUnsuccessfulProcedureFollowsModule()
    ensures FollowsModule(Records.SMFUnsuccessfulProcedure.fields,
      [Mandatory(GoField.FailedProcedureType, 1, GoType.SMFFailedProcedureType),
        Mandatory(GoField.FailureCause, 2, GoType.FiveGSMCause),
        Mandatory(GoField.Initiator, 3, GoType.Initiator), Optional(GoField.SUPI, 5, GoType.SUPI),
        Optional(GoField.SUPIUnauthenticated, 6, GoType.SUPIUnauthenticatedIndication),
        Optional(GoField.PEI, 7, GoType.PEI), Optional(GoField.GPSI, 8, GoType.GPSI),
        Optional(GoField.PDUSessionID, 9, GoType.PDUSessionID),
        Optional(GoField.UEEndpoint, 10, GoType.UEEndpointAddress), Optional(GoField.DNN, 12, GoType.DNN),
        Optional(GoField.AMFID, 13, GoType.AMFID),
        Optional(GoField.RequestType, 15, GoType.FiveGSMRequestType),
        Optional(GoField.AccessType, 16, GoType.AccessType), Optional(GoField.RATType, 17, GoType.RATType)])
  {
    ListsHold();
  }

  lemma {:induction false} AMFUEServiceAcceptFollowsModule()
    ensures FollowsModule(Records.AMFUEServiceAccept.fields,
      [Mandatory(GoField.UserIdentifiers, 1, GoType.UserIdentifiers),
        Mandatory(GoField.ServiceMessageIdentity, 2, GoType.ServiceMessageIdentity),
        Optional(GoField.ServiceType, 3, GoType.ServiceType),
        Optional(GoField.FiveGTMSI, 4, GoType.FiveGTMSI)])
  {
  }

  lemma {:induction false} AMFUEPolicyTransferFollowsModule()
    ensures FollowsModule(Records.AMFUEPolicyTransfer.fields,
      [Mandatory(GoField.SUPI, 1, GoType.SUPI), Optional(GoField.SUCI, 2, GoType.SUCI),
        Optional(GoField.PEI, 3, GoType.PEI), Optional(GoField.GPSI, 4, GoType.GPSI),
        Optional(GoField.GUTI, 5, GoType.FiveGGUTI), Mandatory(GoField.UEPolicy, 6, GoType.UEPolicy)])
  {
  }

  lemma {:induction false} AMFPositioningInfoTransferFollowsModule()
    ensures FollowsModule(Records.AMFPositioningInfoTransfer.fields,
      [Mandatory(GoField.SUPI, 1, GoType.SUPI), Optional(GoField.SUCI, 2, GoType.SUCI),
        Optional(GoField.PEI, 3, GoType.PEI), Optional(GoField.GPSI, 4, GoType.GPSI),
        Optional(GoField.GUTI, 5, GoType.FiveGGUTI), Optional(GoField.NRPPaMessage, 6, GoType.Bytes),
        Optional(GoField.LPPMessage, 7, GoType.Bytes),
        Mandatory(GoField.LCSCorrelationID, 8, GoType.LCSCorrelationID)])
  {
  }

  lemma {:induction false} AMFRANHandoverCommandFollowsModule()
    ensures FollowsModule(Records.AMFRANHandoverCommand.fields,
      [Mandatory(GoField.UserIdentifiers, 1, GoType.UserIdentifiers),
        Mandatory(GoField.AMFUENGAPID, 2, GoType.AMFUENGAPID),
        Mandatory(GoField.RANUENGAPID, 3, GoType.RANUENGAPID),
        Mandatory(GoField.HandoverType, 4, GoType.HandoverType),
        Mandatory(GoField.TargetToSourceContainer, 5, GoType.RANTargetToSourceContainer)])
  {
  }

  lemma {:induction false} AMFRANHandoverRequestFollowsModule()
    ensures FollowsModule(Records.AMFRANHandoverRequest.fields,
      [Mandatory(GoField.UserIdentifiers, 1, GoType.UserIdentifiers),
        Mandatory(GoField.AMFUENGAPID, 2, GoType.AMFUENGAPID),
        Mandatory(GoField.RANUENGAPID, 3, GoType.RANUENGAPID),
        Mandatory(GoField.HandoverType, 4, GoType.HandoverType),
        Mandatory(GoField.HandoverCause, 5, GoType.HandoverCause),
        Mandatory(GoField.PDUSessionResourceInformation, 6, GoType.PDUSessionResourceInformation),
        Mandatory(GoField.TargetToSourceContainer, 9, GoType.RANTargetToSourceContainer),
        Mandatory(GoField.SourceToTargetContainer, 11, GoType.RANSourceToTargetContainer)])
  {
  }

  predicate AlternativesAre(alts: seq<Alt>, expected: seq<(nat, GoType.Name)>) {
    |alts| == |expected| && forall i :: 0 <= i < |alts| ==> (alts[i].tag, KindOf(alts[i].ty)) == expected[i]
  }

  /** The alternatives of the nested CHOICEs, under the module's tags. */
  lemma {:induction false} ChoicesFollowModule()
    ensures AlternativesAre(Records.SUPI.alts, [(1, GoType.IMSI), (2, GoType.NAI)])
    ensures AlternativesAre(Records.PEI.alts, [(1, GoType.IMEI), (2, GoType.IMEISV)])
    ensures AlternativesAre(Records.GPSI.alts, [(1, GoType.MSISDN), (2, GoType.NAI)])
    ensures AlternativesAre(Records.UEEndpointAddress.alts,
      [(1, GoType.IPv4Address), (2, GoType.IPv6Address), (3, GoType.MACAddress)])
    ensures AlternativesAre(Records.AMFFailureCause.alts, [(1, GoType.FiveGMMCause), (2, GoType.FiveGSMCause)])
    ensures AlternativesAre(Records.FiveGSSubscriberID.alts,
      [(1, GoType.SubscriberSUPI), (3, GoType.SubscriberPEI), (4, GoType.SubscriberGPSI)])
    ensures AlternativesAre(Records.ServiceMessageIdentity.alts,
      [(1, GoType.ServiceRequestIdentity), (2, GoType.ServiceAcceptIdentity)])
    ensures AlternativesAre(Records.HandoverCause.alts,
      [(1, GoType.CauseRadioNetwork), (2, GoType.CauseTransport), (3, GoType.CauseNas), (4, GoType.CauseProtocol),
       (5, GoType.CauseMisc)])
  {
  }

  /** The alternatives of XIRIEvent the encoder writes. */
  const EventTags: seq<(nat, GoType.Name)> := [
    (1, GoType.AMFRegistration), (2, GoType.AMFDeregistration), (3, GoType.AMFLocationUpdate),
    (4, GoType.AMFStartOfInterceptionWithRegisteredUE), (5, GoType.AMFUnsuccessfulProcedure),
    (6, GoType.SMFPDUSessionEstablishment), (7, GoType.SMFPDUSessionModification),
    (8, GoType.SMFPDUSessionRelease), (9, GoType.SMFStartOfInterceptionWithEstablishedPDUSession),
    (10, GoType.SMFUnsuccessfulProcedure), (62, GoType.AMFIdentifierAssociation),
    (111, GoType.AMFPositioningInfoTransfer), (113, GoType.AMFRANHandoverCommand),
    (114, GoType.AMFRANHandoverRequest), (146, GoType.AMFUEPolicyTransfer), (147, GoType.AMFUEServiceAccept),
    (186, GoType.AMFIdentifierDeassociation)]

  lemma {:induction false} AlternativesFollowModule(i: nat)
    requires i < |Records.XIRIEvent.alts|
    ensures |Records.XIRIEvent.alts| == |EventTags|
    ensures var alt := Records.XIRIEvent.alts[i]; alt.ty.TStruct? && (alt.tag, alt.ty.name) == EventTags[i]
  {
  }

  /**
   The octets of every payload: a SEQUENCE of the payload's object identifier under [1] and, under
   [2], the record under the tag the module gives it.
   */
  lemma {:induction false} PayloadIsTagged(event: Event)
    requires EventTyped(event) && EncodePayload(event).Success?
    ensures event.Some? && event.value.ty.TStruct?
    ensures var t := PayloadElement(event).value;
      && EncodePayload(event) == Success(Encode(t))
      && t.Cons? && t.class_ == Universal && t.tag == 16 && |t.children| == 2
      && t.children[0] == Prim(Context, 1, [0x04, 0x13, 0x12, 0x0F, 0x01])
      && t.children[1].Cons? && t.children[1].class_ == Context && t.children[1].tag == 2
      && |t.children[1].children| == 1
      && t.children[1].children[0].class_ == Context
      && (t.children[1].children[0].tag, event.value.ty.name) in EventTags
  {
    PayloadTyped(event);
    var fields, members := Records.PayloadFields, PayloadMembers(event);
    assert !Omitted(fields[0], members[0]) && !Omitted(fields[1], members[1]);
    assert fields[1..][1..] == [] && members[1..][1..] == [];
    assert Emit(FieldOf(GoType.XIRIPayload, fields[0].name), fields[0].tag, fields[0].ty, members[0])
      == Success(Prim(Context, 1, PAYLOAD_OID));
    var inner := EmitAlt(FieldOf(GoType.XIRIPayload, GoField.Event), GoType.XIRIEvent, Records.XIRIEvent.alts,
      Iface(event));
    assert Emit(FieldOf(GoType.XIRIPayload, fields[1].name), fields[1].tag, fields[1].ty, members[1])
      == Wrapped(Context, 2, One(inner));
    assert EmitFields(GoType.XIRIPayload, fields[1..], members[1..]).Success?;
    assert inner.Success?;
    var k := FindAlt(Records.XIRIEvent.alts, event.value.ty).value;
    AlternativesFollowModule(k);
    EmitTags(FieldOf(GoType.XIRIPayload, GoField.Event), Records.XIRIEvent.alts[k].tag, event.value.ty,
      event.value.v);
  }

  // -------------------------------------------------------------------------- restrictions

  /** The INTEGER ranges of the module, none for a type it does not restrict. */
  ghost predicate InRange(t: GoType.Name, n: int) {
    match t
    case PDUSessionID => 0 <= n <= 255
    case FiveGMMCause => 0 <= n <= 255
    case FiveGSMCause => 0 <= n <= 255
    case SliceServiceType => 0 <= n <= 255
    case AMFRegionID => 0 <= n <= 255
    case AMFSetID => 0 <= n <= 1023
    case AMFPointer => 0 <= n <= 63
    case ProtectionSchemeID => 0 <= n <= 15
    case SUPIType => 0 <= n <= 7
    case RoutingIndicator => 0 <= n <= 9999
    case RoutingIndicatorLength => 1 <= n <= 4
    case RANUENGAPID => 0 <= n <= 4294967295
    case TEID => 0 <= n <= 4294967295
    case FiveGTMSI => 0 <= n <= 4294967295
    case AMFUENGAPID => 0 <= n <= 1099511627775
    case _ => true
  }

  /** The values of the module's ENUMERATED types; CauseRadioNetwork leaves out 28. */
  ghost predicate Enumerates(t: GoType.Name, n: int) {
    match t
    case AMFDirection => 1 <= n <= 2
    case CauseTransport => 1 <= n <= 2
    case AMFRegistrationResult => 1 <= n <= 3
    case AccessType => 1 <= n <= 3
    case AMFFailedProcedureType => 1 <= n <= 3
    case SMFFailedProcedureType => 1 <= n <= 3
    case Initiator => 1 <= n <= 3
    case HandoverType => 1 <= n <= 4
    case CauseNas => 1 <= n <= 4
    case PDUSessionType => 1 <= n <= 5
    case CauseMisc => 1 <= n <= 6
    case AMFRegistrationType => 1 <= n <= 7
    case FiveGSMRequestType => 1 <= n <= 7
    case CauseProtocol => 1 <= n <= 7
    case CauseRadioNetwork => 1 <= n <= 27 || 29 <= n <= 52
    case _ => false
  }

  ghost predicate IsEnumerated(t: GoType.Name) {
    exists n :: Enumerates(t, n)
  }

  /** The enumerated types a record may leave out. */
  ghost predicate MayBeAbsent(t: GoType.Name) {
    t.AccessType? || t.AMFRegistrationType? || t.FiveGSMRequestType?
  }

  /**
   An integer passes exactly if the module admits it, or it is the zero of an enumeration that may
   be absent there, or it is the one value, 28, the range of CauseRadioNetwork covers and the
   module leaves out.
   */
  lemma {:induction false} IntegersFollowModule(t: GoType.Name, n: int, zeroForbidden: bool)
    ensures Meets(TInt(t), Int(n), zeroForbidden) <==>
      if IsEnumerated(t) then
        Enumerates(t, n) || (n == 0 && MayBeAbsent(t) && !zeroForbidden) || (t.CauseRadioNetwork? && n == 28)
      else InRange(t, n)
  {
    if EnumRange(t).Some? {
      assert Enumerates(t, 1);
    }
  }

  ghost predicate ZeroRefusedWhereMandatory(record: Ty)
    requires record.TStruct?
  {
    forall i :: 0 <= i < |record.fields| && record.fields[i].ty.TInt? && MayBeAbsent(record.fields[i].ty.name) ==>
      (MandatoryEnumField(record.name, record.fields[i].name) <==> !record.fields[i].optional)
  }

  /** Zero is refused for such an enumeration exactly in the records where its component is mandatory. */
  lemma {:induction false} ZeroIsRefusedWhereMandatory()
    ensures ZeroRefusedWhereMandatory(Records.AMFRegistration)
    ensures ZeroRefusedWhereMandatory(Records.AMFDeregistration)
    ensures ZeroRefusedWhereMandatory(Records.AMFStartOfInterceptionWithRegisteredUE)
    ensures ZeroRefusedWhereMandatory(Records.SMFPDUSessionModification)
  {
  }

  lemma {:induction false} ZeroIsRefusedWhereMandatoryInSessions()
    ensures ZeroRefusedWhereMandatory(Records.SMFPDUSessionEstablishment)
    ensures ZeroRefusedWhereMandatory(Records.SMFStartOfInterceptionWithEstablishedPDUSession)
    ensures ZeroRefusedWhereMandatory(Records.SMFUnsuccessfulProcedure)
  {
  }

  /** An octet string passes exactly if it is empty or has the size the module asks for. */
  lemma {:induction false} OctetStringsFollowModule(t: GoType.Name, b: Bytes, zeroForbidden: bool)
    ensures Meets(TOctets(t), Octets(None), zeroForbidden)
    ensures Meets(TOctets(t), Octets(Some(b)), zeroForbidden) <==>
      || b == []
      || (match t
          case IPv4Address => |b| == 4
          case IPv6Address => |b| == 16
          case MACAddress => |b| == 6
          case SliceDifferentiator => |b| == 3
          case ServiceType => |b| == 1
          case TAC => |b| == 2 || |b| == 3
          case UEPolicy => 16 <= |b| <= 65540
          case _ => true)
  {
  }

  /** A string passes exactly if it is empty or has the size, in characters, and the digits the module asks for. */
  lemma {:induction false} StringsFollowModule(t: GoType.Name, b: Bytes, zeroForbidden: bool)
    ensures Meets(TText(t), Text(b), zeroForbidden) <==>
      || b == []
      || (match t
          case MCC => RuneCount(b) == 3 && forall i :: 0 <= i < |b| ==> b[i] == 32 || 48 <= b[i] <= 57
          case MNC => (RuneCount(b) == 2 || RuneCount(b) == 3) &&
            forall i :: 0 <= i < |b| ==> b[i] == 32 || 48 <= b[i] <= 57
          case NID => RuneCount(b) == 11
          case LCSCorrelationID => 1 <= RuneCount(b) <= 255
          case _ => true)
  {
  }

  /** A Unicode scalar value. */
  type Scalar = c: nat | c < 0xD800 || 0xE000 <= c < 0x11_0000

  /** Its UTF-8 form. */
  function Utf8(c: Scalar): Bytes {
    if c < 0x80 then [c]
    else if c < 0x800 then [0xC0 + c / 64, 0x80 + c % 64]
    else if c < 0x1_0000 then [0xE0 + c / 4096, 0x80 + c / 64 % 64, 0x80 + c % 64]
    else [0xF0 + c / 262144, 0x80 + c / 4096 % 64, 0x80 + c / 64 % 64, 0x80 + c % 64]
  }

  function Utf8Text(cs: seq<Scalar>): Bytes {
    if cs == [] then [] else Utf8(cs[0]) + Utf8Text(cs[1..])
  }

  lemma {:induction false} WidthOfUtf8(c: Scalar, b: Bytes)
    requires |Utf8(c)| <= |b| && b[..|Utf8(c)|] == Utf8(c)
    ensures RuneWidth(b) == |Utf8(c)|
  {
    var u := Utf8(c);
    assert forall i :: 0 <= i < |u| ==> b[i] == b[..|u|][i];
    if c < 0x80 {
      assert b[0] == c;
    } else if c < 0x800 {
      assert b[0] == 0xC0 + c / 64 && b[1] == 0x80 + c % 64;
    } else if c < 0x1_0000 {
      assert b[0] == 0xE0 + c / 4096 && b[1] == 0x80 + c / 64 % 64 && b[2] == 0x80 + c % 64;
    } else {
      assert b[0] == 0xF0 + c / 262144 && b[1] == 0x80 + c / 4096 % 64;
      assert b[2] == 0x80 + c / 64 % 64 && b[3] == 0x80 + c % 64;
    }
  }

  /** A text's size is the number of its characters. */
  lemma {:induction false} RunesAreCharacters(cs: seq<Scalar>)
    ensures RuneCount(Utf8Text(cs)) == |cs|
  {
    if cs != [] {
      var b := Utf8Text(cs);
      assert b[..|Utf8(cs[0])|] == Utf8(cs[0]);
      WidthOfUtf8(cs[0], b);
      RunesAreCharacters(cs[1..]);
      assert b[|Utf8(cs[0])|..] == Utf8Text(cs[1..]);
    }
  }

  // --------------------------------------------------------------------- the endpoint list

  /** The guard looks at the member the records call UEEndpoint. */
  lemma {:induction false} EndpointGuardIs(d: Dyn, k: nat)
    requires WellTyped(d.ty, d.v) && d.ty.TStruct? && k < |d.ty.fields|
    requires d.ty.fields[k].name == GoField.UEEndpoint
    ensures d.ty == Records.SMFStartOfInterceptionWithEstablishedPDUSession ==>
      (EndpointsAcceptable(d) <==> d.v.members[k].List? && d.v.members[k].elems != [])
    ensures d.ty == Records.SMFPDUSessionEstablishment ==>
      (EndpointsAcceptable(d) <==> d.v.members[k] != List([]))
  {
  }

  /** Each answer of EncodeXIRI: endpoints before restrictions, restrictions before the encoding. */
  lemma {:induction false} OutcomeIs(event: Event)
    requires EventTyped(event)
    ensures EncodeXiri(event) == Panicked <==> event.None?
    ensures EncodeXiri(event) == EndpointsRefused <==> event.Some? && !EndpointsAcceptable(event.value)
    ensures EncodeXiri(event).ConstraintRefused? <==>
      && event.Some? && EndpointsAcceptable(event.value)
      && exists path :: Offends(Spot(event.value.ty, event.value.v, false), path)
    ensures EncodeXiri(event).EncodingRefused? <==>
      && event.Some? && EndpointsAcceptable(event.value)
      && (forall path :: !Offends(Spot(event.value.ty, event.value.v, false), path))
      && !(FindAlt(Records.XIRIEvent.alts, event.value.ty).Some? && Writable(event.value.ty, event.value.v))
  {
    if event.Some? {
      WalkPassesIffAllMet(event.value.ty, event.value.v, false);
      PayloadWritable(event);
    }
  }
}
