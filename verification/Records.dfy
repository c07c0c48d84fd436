/**
 The record types of iri/iri.go with the tags and presence iri/emit.go gives their members,
 and the proof that each is well formed.
 */
module Records {
  import opened Schema
  import GoType
  import GoField

  // ------------------------------------------------------------------------ CHOICEs

  const SUPI := TChoice(GoType.SUPI, [Alt(1, TText(GoType.IMSI)), Alt(2, TText(GoType.NAI))])
  const PEI := TChoice(GoType.PEI, [Alt(1, TText(GoType.IMEI)), Alt(2, TText(GoType.IMEISV))])
  const GPSI := TChoice(GoType.GPSI, [Alt(1, TText(GoType.MSISDN)), Alt(2, TText(GoType.NAI))])
  const UEEndpointAddress := TChoice(GoType.UEEndpointAddress,
    [Alt(1, TOctets(GoType.IPv4Address)), Alt(2, TOctets(GoType.IPv6Address)),
     Alt(3, TOctets(GoType.MACAddress))])
  const AMFFailureCause := TChoice(GoType.AMFFailureCause, [Alt(1, TInt(GoType.FiveGMMCause)),
     Alt(2, TInt(GoType.FiveGSMCause))])
  const FiveGSSubscriberID := TChoice(GoType.FiveGSSubscriberID,
    [Alt(1, TWrap(GoType.SubscriberSUPI, SUPI)), Alt(3, TWrap(GoType.SubscriberPEI, PEI)),
     Alt(4, TWrap(GoType.SubscriberGPSI, GPSI))])
  const ServiceMessageIdentity := TChoice(GoType.ServiceMessageIdentity,
    [Alt(1, TOctets(GoType.ServiceRequestIdentity)), Alt(2, TOctets(GoType.ServiceAcceptIdentity))])
  const HandoverCause := TChoice(GoType.HandoverCause,
    [Alt(1, TInt(GoType.CauseRadioNetwork)), Alt(2, TInt(GoType.CauseTransport)), Alt(3, TInt(GoType.CauseNas)),
     Alt(4, TInt(GoType.CauseProtocol)), Alt(5, TInt(GoType.CauseMisc))])

  // --------------------------------------------------------------- nested structures

  function Must(name: GoField.Name, tag: nat, ty: Ty): Field { Field(name, tag, false, ty) }
  function May(name: GoField.Name, tag: nat, ty: Ty): Field { Field(name, tag, true, ty) }

  const SNSSAI := TStruct(GoType.SNSSAI,
    [Must(GoField.SliceServiceType, 1, TInt(GoType.SliceServiceType)),
     May(GoField.SliceDifferentiator, 2, TOctets(GoType.SliceDifferentiator)),
     May(GoField.MappedHPLMNSST, 3, TInt(GoType.SliceServiceType)),
     May(GoField.MappedHPLMNSD, 4, TOctets(GoType.SliceDifferentiator))])
  const FTEID := TStruct(GoType.FTEID,
    [Must(GoField.TEID, 1, TInt(GoType.TEID)), May(GoField.IPv4Address, 2, TOctets(GoType.IPv4Address)),
     May(GoField.IPv6Address, 3, TOctets(GoType.IPv6Address))])
  const FiveGSGTPTunnels := TStruct(GoType.FiveGSGTPTunnels, [May(GoField.ULNGUUPTunnelInformation, 1, FTEID)])
  const GTPTunnelInfo := TStruct(GoType.GTPTunnelInfo, [May(GoField.FiveGSGTPTunnels, 1, FiveGSGTPTunnels)])
  const LocationInfo := TStruct(GoType.LocationInfo, [May(GoField.CurrentLocation, 2, TBool(GoType.Bool))])
  const Location := TStruct(GoType.Location, [May(GoField.LocationInfo, 1, LocationInfo)])
  const FiveGSSubscriberIDs := TStruct(GoType.FiveGSSubscriberIDs, [Must(GoField.IDs, 1, TList(FiveGSSubscriberID))])
  const UserIdentifiers := TStruct(GoType.UserIdentifiers, [May(GoField.FiveGS, 1, FiveGSSubscriberIDs)])
  const PDUSessionResourceInformation := TStruct(GoType.PDUSessionResourceInformation, [Must(GoField.PDUSessionID,
      1, TInt(GoType.PDUSessionID))])
  const FiveGGUTI := TStruct(GoType.FiveGGUTI,
    [Must(GoField.MCC, 1, TText(GoType.MCC)), Must(GoField.MNC, 2, TText(GoType.MNC)),
     Must(GoField.AMFRegionID, 3, TInt(GoType.AMFRegionID)),
     Must(GoField.AMFSetID, 4, TInt(GoType.AMFSetID)), Must(GoField.AMFPointer, 5, TInt(GoType.AMFPointer)),
     Must(GoField.FiveGTMSI, 6, TInt(GoType.FiveGTMSI))])
  const SUCI := TStruct(GoType.SUCI,
    [Must(GoField.MCC, 1, TText(GoType.MCC)), Must(GoField.MNC, 2, TText(GoType.MNC)),
     Must(GoField.RoutingIndicator, 3, TInt(GoType.RoutingIndicator)),
     Must(GoField.ProtectionSchemeID, 4, TInt(GoType.ProtectionSchemeID)),
     Must(GoField.HomeNetworkPublicKeyID, 5, TOctets(GoType.HomeNetworkPublicKeyID)),
     Must(GoField.SchemeOutput, 6, TOctets(GoType.SchemeOutput)),
     May(GoField.RoutingIndicatorLength, 7, TPtr(TInt(GoType.RoutingIndicatorLength))),
     May(GoField.SUPIType, 8, TPtr(TInt(GoType.SUPIType))),
     May(GoField.HomeNetworkIdentifier, 9, TText(GoType.HomeNetworkIdentifier))])
  const PLMNID := TStruct(GoType.PLMNID, [Must(GoField.MCC, 1, TText(GoType.MCC)),
     Must(GoField.MNC, 2, TText(GoType.MNC))])
  const TAI := TStruct(GoType.TAI, [Must(GoField.PLMNID, 1, PLMNID), Must(GoField.TAC, 2, TOctets(GoType.TAC)),
     May(GoField.NID, 3, TText(GoType.NID))])
  const TAIList := TList(TAI)
  const SMFServingNetwork := TStruct(GoType.SMFServingNetwork, [Must(GoField.PLMNID, 1, PLMNID),
     May(GoField.NID, 2, TText(GoType.NID))])
  const AMFID := TStruct(GoType.AMFID,
    [Must(GoField.AMFRegionID, 1, TInt(GoType.AMFRegionID)), Must(GoField.AMFSetID, 2, TInt(GoType.AMFSetID)),
     Must(GoField.AMFPointer, 3, TInt(GoType.AMFPointer))])
  const Unauthenticated := TPtr(TBool(GoType.SUPIUnauthenticatedIndication))
  const UEEndpoints := TList(UEEndpointAddress)

  // ------------------------------------------------------------------------ records

  const AMFRegistration := TStruct(GoType.AMFRegistration,
    [Must(GoField.RegistrationType, 1, TInt(GoType.AMFRegistrationType)),
     Must(GoField.RegistrationResult, 2, TInt(GoType.AMFRegistrationResult)),
     Must(GoField.SUPI, 4, SUPI), May(GoField.SUCI, 5, SUCI), May(GoField.PEI, 6, PEI),
     May(GoField.GPSI, 7, GPSI), Must(GoField.GUTI, 8, FiveGGUTI),
     May(GoField.FiveGSTAIList, 11, TAIList), May(GoField.RATType, 18, TInt(GoType.RATType))])
  const AMFDeregistration := TStruct(GoType.AMFDeregistration,
    [Must(GoField.DeregistrationDirection, 1, TInt(GoType.AMFDirection)),
     Must(GoField.AccessType, 2, TInt(GoType.AccessType)),
     May(GoField.SUPI, 3, SUPI), May(GoField.SUCI, 4, SUCI), May(GoField.PEI, 5, PEI),
     May(GoField.GPSI, 6, GPSI), May(GoField.GUTI, 7, FiveGGUTI)])
  const AMFStartOfInterceptionWithRegisteredUE := TStruct(GoType.AMFStartOfInterceptionWithRegisteredUE,
    [Must(GoField.RegistrationResult, 1, TInt(GoType.AMFRegistrationResult)),
     May(GoField.RegistrationType, 2, TInt(GoType.AMFRegistrationType)),
     Must(GoField.SUPI, 4, SUPI), May(GoField.SUCI, 5, SUCI), May(GoField.PEI, 6, PEI),
     May(GoField.GPSI, 7, GPSI), Must(GoField.GUTI, 8, FiveGGUTI),
     May(GoField.FiveGSTAIList, 12, TAIList)])
  const SMFPDUSessionEstablishment := TStruct(GoType.SMFPDUSessionEstablishment,
    [May(GoField.SUPI, 1, SUPI), May(GoField.SUPIUnauthenticated, 2, Unauthenticated),
     May(GoField.PEI, 3, PEI), May(GoField.GPSI, 4, GPSI),
     Must(GoField.PDUSessionID, 5, TInt(GoType.PDUSessionID)), Must(GoField.GTPTunnelID, 6, FTEID),
     Must(GoField.PDUSessionType, 7, TInt(GoType.PDUSessionType)), May(GoField.SNSSAI, 8, SNSSAI),
     May(GoField.UEEndpoint, 9, UEEndpoints),
     Must(GoField.DNN, 12, TText(GoType.DNN)), May(GoField.AMFID, 13, AMFID),
     Must(GoField.RequestType, 15, TInt(GoType.FiveGSMRequestType)),
     May(GoField.AccessType, 16, TInt(GoType.AccessType)), May(GoField.RATType, 17, TInt(GoType.RATType)),
     May(GoField.ServingNetwork, 22, SMFServingNetwork), May(GoField.GTPTunnelInfo, 25, GTPTunnelInfo)])
  const SMFPDUSessionModification := TStruct(GoType.SMFPDUSessionModification,
    [May(GoField.SUPI, 1, SUPI), May(GoField.SUPIUnauthenticated, 2, Unauthenticated),
     May(GoField.PEI, 3, PEI), May(GoField.GPSI, 4, GPSI),
     May(GoField.SNSSAI, 5, SNSSAI), Must(GoField.RequestType, 8, TInt(GoType.FiveGSMRequestType)),
     May(GoField.AccessType, 9, TInt(GoType.AccessType)),
     May(GoField.RATType, 10, TInt(GoType.RATType)), May(GoField.PDUSessionID, 11, TInt(GoType.PDUSessionID)),
     May(GoField.UEEndpoint, 13, UEEndpoints),
     May(GoField.ServingNetwork, 14, SMFServingNetwork), May(GoField.GTPTunnelInfo, 16, GTPTunnelInfo)])
  const SMFPDUSessionRelease := TStruct(GoType.SMFPDUSessionRelease,
    [Must(GoField.SUPI, 1, SUPI), May(GoField.PEI, 2, PEI), May(GoField.GPSI, 3, GPSI),
     Must(GoField.PDUSessionID, 4, TInt(GoType.PDUSessionID)),
     May(GoField.UplinkVolume, 7, TInt(GoType.Int64)), May(GoField.DownlinkVolume, 8, TInt(GoType.Int64))])
  const AMFLocationUpdate := TStruct(GoType.AMFLocationUpdate,
    [Must(GoField.SUPI, 1, SUPI), May(GoField.SUCI, 2, SUCI), May(GoField.PEI, 3, PEI),
     May(GoField.GPSI, 4, GPSI), May(GoField.GUTI, 5, FiveGGUTI),
     Must(GoField.Location, 6, Location)])
  const AMFUnsuccessfulProcedure := TStruct(GoType.AMFUnsuccessfulProcedure,
    [Must(GoField.FailedProcedureType, 1, TInt(GoType.AMFFailedProcedureType)),
     Must(GoField.FailureCause, 2, AMFFailureCause),
     May(GoField.SUPI, 4, SUPI), May(GoField.SUCI, 5, SUCI), May(GoField.PEI, 6, PEI),
     May(GoField.GPSI, 7, GPSI), May(GoField.GUTI, 8, FiveGGUTI),
     May(GoField.Location, 9, Location)])
  const AMFIdentifierAssociation := TStruct(GoType.AMFIdentifierAssociation,
    [Must(GoField.SUPI, 1, SUPI), May(GoField.SUCI, 2, SUCI), May(GoField.PEI, 3, PEI),
     May(GoField.GPSI, 4, GPSI), Must(GoField.GUTI, 5, FiveGGUTI),
     Must(GoField.Location, 6, Location), May(GoField.FiveGSTAIList, 7, TAIList)])
  const AMFIdentifierDeassociation := TStruct(GoType.AMFIdentifierDeassociation,
    [Must(GoField.SUPI, 1, SUPI), May(GoField.SUCI, 2, SUCI), May(GoField.PEI, 3, PEI),
     May(GoField.GPSI, 4, GPSI), Must(GoField.GUTI, 5, FiveGGUTI)])
  const SMFStartOfInterceptionWithEstablishedPDUSession := TStruct(
    GoType.SMFStartOfInterceptionWithEstablishedPDUSession,
    [May(GoField.SUPI, 1, SUPI), May(GoField.SUPIUnauthenticated, 2, Unauthenticated),
     May(GoField.PEI, 3, PEI), May(GoField.GPSI, 4, GPSI),
     Must(GoField.PDUSessionID, 5, TInt(GoType.PDUSessionID)), Must(GoField.GTPTunnelID, 6, FTEID),
     Must(GoField.PDUSessionType, 7, TInt(GoType.PDUSessionType)), May(GoField.SNSSAI, 8, SNSSAI),
     Must(GoField.UEEndpoint, 9, UEEndpoints),
     Must(GoField.DNN, 12, TText(GoType.DNN)), May(GoField.AMFID, 13, AMFID),
     Must(GoField.RequestType, 15, TInt(GoType.FiveGSMRequestType)),
     May(GoField.AccessType, 16, TInt(GoType.AccessType)), May(GoField.RATType, 17, TInt(GoType.RATType)),
     May(GoField.ServingNetwork, 22, SMFServingNetwork), May(GoField.GTPTunnelInfo, 23, GTPTunnelInfo)])
  const SMFUnsuccessfulProcedure := TStruct(GoType.SMFUnsuccessfulProcedure,
    [Must(GoField.FailedProcedureType, 1, TInt(GoType.SMFFailedProcedureType)),
     Must(GoField.FailureCause, 2, TInt(GoType.FiveGSMCause)),
     Must(GoField.Initiator, 3, TInt(GoType.Initiator)), May(GoField.SUPI, 5, SUPI),
     May(GoField.SUPIUnauthenticated, 6, Unauthenticated),
     May(GoField.PEI, 7, PEI), May(GoField.GPSI, 8, GPSI),
     May(GoField.PDUSessionID, 9, TInt(GoType.PDUSessionID)), May(GoField.UEEndpoint, 10, UEEndpoints),
     May(GoField.DNN, 12, TText(GoType.DNN)), May(GoField.AMFID, 13, AMFID),
     May(GoField.RequestType, 15, TInt(GoType.FiveGSMRequestType)),
     May(GoField.AccessType, 16, TInt(GoType.AccessType)), May(GoField.RATType, 17, TInt(GoType.RATType))])
  const AMFUEServiceAccept := TStruct(GoType.AMFUEServiceAccept,
    [Must(GoField.UserIdentifiers, 1, UserIdentifiers),
     Must(GoField.ServiceMessageIdentity, 2, ServiceMessageIdentity),
     May(GoField.ServiceType, 3, TOctets(GoType.ServiceType)),
     May(GoField.FiveGTMSI, 4, TInt(GoType.FiveGTMSI))])
  const AMFUEPolicyTransfer := TStruct(GoType.AMFUEPolicyTransfer,
    [Must(GoField.SUPI, 1, SUPI), May(GoField.SUCI, 2, SUCI), May(GoField.PEI, 3, PEI),
     May(GoField.GPSI, 4, GPSI), May(GoField.GUTI, 5, FiveGGUTI),
     Must(GoField.UEPolicy, 6, TOctets(GoType.UEPolicy))])
  const AMFPositioningInfoTransfer := TStruct(GoType.AMFPositioningInfoTransfer,
    [Must(GoField.SUPI, 1, SUPI), May(GoField.SUCI, 2, SUCI), May(GoField.PEI, 3, PEI),
     May(GoField.GPSI, 4, GPSI), May(GoField.GUTI, 5, FiveGGUTI),
     May(GoField.NRPPaMessage, 6, TOctets(GoType.Bytes)), May(GoField.LPPMessage, 7, TOctets(GoType.Bytes)),
     Must(GoField.LCSCorrelationID, 8, TText(GoType.LCSCorrelationID))])
  const AMFRANHandoverCommand := TStruct(GoType.AMFRANHandoverCommand,
    [Must(GoField.UserIdentifiers, 1, UserIdentifiers), Must(GoField.AMFUENGAPID, 2, TInt(GoType.AMFUENGAPID)),
     Must(GoField.RANUENGAPID, 3, TInt(GoType.RANUENGAPID)),
     Must(GoField.HandoverType, 4, TInt(GoType.HandoverType)),
     Must(GoField.TargetToSourceContainer, 5, TOctets(GoType.RANTargetToSourceContainer))])
  const AMFRANHandoverRequest := TStruct(GoType.AMFRANHandoverRequest,
    [Must(GoField.UserIdentifiers, 1, UserIdentifiers), Must(GoField.AMFUENGAPID, 2, TInt(GoType.AMFUENGAPID)),
     Must(GoField.RANUENGAPID, 3, TInt(GoType.RANUENGAPID)),
     Must(GoField.HandoverType, 4, TInt(GoType.HandoverType)),
     Must(GoField.HandoverCause, 5, HandoverCause),
     Must(GoField.PDUSessionResourceInformation, 6, PDUSessionResourceInformation),
     Must(GoField.TargetToSourceContainer, 9, TOctets(GoType.RANTargetToSourceContainer)),
     Must(GoField.SourceToTargetContainer, 11, TOctets(GoType.RANSourceToTargetContainer))])

  /** XIRIEvent: the 17 records this encoder writes. */
  const XIRIEvent := TChoice(GoType.XIRIEvent,
    [Alt(1, AMFRegistration), Alt(2, AMFDeregistration), Alt(3, AMFLocationUpdate),
     Alt(4, AMFStartOfInterceptionWithRegisteredUE), Alt(5, AMFUnsuccessfulProcedure),
     Alt(6, SMFPDUSessionEstablishment),
     Alt(7, SMFPDUSessionModification), Alt(8, SMFPDUSessionRelease),
     Alt(9, SMFStartOfInterceptionWithEstablishedPDUSession),
     Alt(10, SMFUnsuccessfulProcedure), Alt(62, AMFIdentifierAssociation), Alt(111, AMFPositioningInfoTransfer),
     Alt(113, AMFRANHandoverCommand), Alt(114, AMFRANHandoverRequest), Alt(146, AMFUEPolicyTransfer),
     Alt(147, AMFUEServiceAccept), Alt(186, AMFIdentifierDeassociation)])

  const PayloadFields := [Must(GoField.OID, 1, TOctets(GoType.Bytes)), Must(GoField.Event, 2, XIRIEvent)]

  // --------------------------------------------------------------------- well-formedness

  lemma {:induction false} IdentitiesWellFormed()
    ensures WellFormed(SUPI) && WellFormed(PEI) && WellFormed(GPSI)
  {
  }

  lemma {:induction false} SubscriberWellFormed()
    ensures WellFormed(FiveGSSubscriberID)
  {
    IdentitiesWellFormed();
  }

  lemma {:induction false} EndpointsWellFormed()
    ensures WellFormed(UEEndpoints)
  {
  }

  lemma {:induction false} CausesWellFormed()
    ensures WellFormed(AMFFailureCause) && WellFormed(HandoverCause) && WellFormed(ServiceMessageIdentity)
  {
  }

  lemma {:induction false} TunnelsWellFormed()
    ensures WellFormed(FTEID) && WellFormed(GTPTunnelInfo)
  {
    assert WellFormed(FiveGSGTPTunnels);
  }

  lemma {:induction false} LocationWellFormed()
    ensures WellFormed(Location)
  {
    assert WellFormed(LocationInfo);
  }

  lemma {:induction false} UserIdentifiersWellFormed()
    ensures WellFormed(UserIdentifiers)
  {
    SubscriberWellFormed();
    assert WellFormed(FiveGSSubscriberIDs);
  }

  lemma {:induction false} GutiWellFormed()
    ensures WellFormed(FiveGGUTI)
  {
  }

  lemma {:induction false} SuciWellFormed()
    ensures WellFormed(SUCI)
  {
  }

  lemma {:induction false} SliceWellFormed()
    ensures WellFormed(SNSSAI) && WellFormed(AMFID)
  {
  }

  lemma {:induction false} TrackingAreasWellFormed()
    ensures WellFormed(TAIList) && WellFormed(SMFServingNetwork)
  {
    assert WellFormed(PLMNID);
    assert WellFormed(TAI);
  }

  lemma {:induction false} AMFRegistrationWellFormed()
    ensures WellFormed(AMFRegistration)
  {
    IdentitiesWellFormed();
    SuciWellFormed();
    GutiWellFormed();
    TrackingAreasWellFormed();
  }

  lemma {:induction false} AMFDeregistrationWellFormed()
    ensures WellFormed(AMFDeregistration)
  {
    IdentitiesWellFormed();
    SuciWellFormed();
    GutiWellFormed();
  }

  lemma {:induction false} AMFLocationUpdateWellFormed()
    ensures WellFormed(AMFLocationUpdate)
  {
    IdentitiesWellFormed();
    SuciWellFormed();
    GutiWellFormed();
    LocationWellFormed();
  }

  lemma {:induction false} AMFStartOfInterceptionWithRegisteredUEWellFormed()
    ensures WellFormed(AMFStartOfInterceptionWithRegisteredUE)
  {
    IdentitiesWellFormed();
    SuciWellFormed();
    GutiWellFormed();
    TrackingAreasWellFormed();
  }

  lemma {:induction false} AMFUnsuccessfulProcedureWellFormed()
    ensures WellFormed(AMFUnsuccessfulProcedure)
  {
    CausesWellFormed();
    IdentitiesWellFormed();
    SuciWellFormed();
    GutiWellFormed();
    LocationWellFormed();
  }

  lemma {:induction false} SessionMembersWellFormed()
    ensures WellFormed(SUPI) && WellFormed(PEI) && WellFormed(GPSI) && WellFormed(FTEID) && WellFormed(GTPTunnelInfo)
    ensures WellFormed(SNSSAI) && WellFormed(AMFID) && WellFormed(UEEndpoints) && WellFormed(SMFServingNetwork)
  {
    IdentitiesWellFormed();
    TunnelsWellFormed();
    SliceWellFormed();
    EndpointsWellFormed();
    TrackingAreasWellFormed();
  }

  lemma {:induction false} EstablishmentTagsAscend()
    ensures Ascending(SMFPDUSessionEstablishment.fields)
  {
  }

  lemma {:induction false} StartTagsAscend()
    ensures Ascending(SMFStartOfInterceptionWithEstablishedPDUSession.fields)
  {
  }

  lemma {:induction false} ModificationTagsAscend()
    ensures Ascending(SMFPDUSessionModification.fields)
  {
  }

  lemma {:induction false} UnsuccessfulProcedureTagsAscend()
    ensures Ascending(SMFUnsuccessfulProcedure.fields)
  {
  }

  lemma {:induction false} SMFPDUSessionEstablishmentWellFormed()
    ensures WellFormed(SMFPDUSessionEstablishment)
  {
    EstablishmentTagsAscend();
    SessionMembersWellFormed();
  }

  lemma {:induction false} SMFPDUSessionModificationWellFormed()
    ensures WellFormed(SMFPDUSessionModification)
  {
    ModificationTagsAscend();
    SessionMembersWellFormed();
  }

  lemma {:induction false} SMFPDUSessionReleaseWellFormed()
    ensures WellFormed(SMFPDUSessionRelease)
  {
    IdentitiesWellFormed();
  }

  lemma {:induction false} SMFStartOfInterceptionWithEstablishedPDUSessionWellFormed()
    ensures WellFormed(SMFStartOfInterceptionWithEstablishedPDUSession)
  {
    StartTagsAscend();
    SessionMembersWellFormed();
  }

  lemma {:induction false} SMFUnsuccessfulProcedureWellFormed()
    ensures WellFormed(SMFUnsuccessfulProcedure)
  {
    UnsuccessfulProcedureTagsAscend();
    SessionMembersWellFormed();
  }

  lemma {:induction false} AMFIdentifierAssociationWellFormed()
    ensures WellFormed(AMFIdentifierAssociation)
  {
    IdentitiesWellFormed();
    SuciWellFormed();
    GutiWellFormed();
    LocationWellFormed();
    TrackingAreasWellFormed();
  }

  lemma {:induction false} AMFPositioningInfoTransferWellFormed()
    ensures WellFormed(AMFPositioningInfoTransfer)
  {
    IdentitiesWellFormed();
    SuciWellFormed();
    GutiWellFormed();
  }

  lemma {:induction false} AMFRANHandoverCommandWellFormed()
    ensures WellFormed(AMFRANHandoverCommand)
  {
    UserIdentifiersWellFormed();
  }

  lemma {:induction false} AMFRANHandoverRequestWellFormed()
    ensures WellFormed(AMFRANHandoverRequest)
  {
    UserIdentifiersWellFormed();
    CausesWellFormed();
    assert WellFormed(PDUSessionResourceInformation);
  }

  lemma {:induction false} AMFUEPolicyTransferWellFormed()
    ensures WellFormed(AMFUEPolicyTransfer)
  {
    IdentitiesWellFormed();
    SuciWellFormed();
    GutiWellFormed();
  }

  lemma {:induction false} AMFUEServiceAcceptWellFormed()
    ensures WellFormed(AMFUEServiceAccept)
  {
    UserIdentifiersWellFormed();
    CausesWellFormed();
  }

  lemma {:induction false} AMFIdentifierDeassociationWellFormed()
    ensures WellFormed(AMFIdentifierDeassociation)
  {
    IdentitiesWellFormed();
    SuciWellFormed();
    GutiWellFormed();
  }

  lemma {:induction false} AscendingTagsAreDistinct(alts: seq<Alt>)
    requires forall i :: 0 < i < |alts| ==> alts[i - 1].tag < alts[i].tag
    ensures forall i, j :: 0 <= i < j < |alts| ==> alts[i].tag < alts[j].tag
  {
    if |alts| > 1 {
      var n := |alts| - 1;
      AscendingTagsAreDistinct(alts[..n]);
      forall i | 0 <= i < n ensures alts[i].tag < alts[n].tag {
        assert i < n - 1 ==> alts[..n][i].tag < alts[..n][n - 1].tag;
      }
    }
  }

  /** The CHOICE of records, and so the payload, is well formed. */
  lemma {:induction false} EventWellFormed()
    ensures WellFormed(XIRIEvent)
  {
    var alts := XIRIEvent.alts;
    AscendingTagsAreDistinct(alts);
    forall i | 0 <= i < |alts| ensures WellFormed(alts[i].ty) {
      if i == 0 {
        AMFRegistrationWellFormed();
      } else if i == 1 {
        AMFDeregistrationWellFormed();
      } else if i == 2 {
        AMFLocationUpdateWellFormed();
      } else if i == 3 {
        AMFStartOfInterceptionWithRegisteredUEWellFormed();
      } else if i == 4 {
        AMFUnsuccessfulProcedureWellFormed();
      } else if i == 5 {
        SMFPDUSessionEstablishmentWellFormed();
      } else if i == 6 {
        SMFPDUSessionModificationWellFormed();
      } else if i == 7 {
        SMFPDUSessionReleaseWellFormed();
      } else if i == 8 {
        SMFStartOfInterceptionWithEstablishedPDUSessionWellFormed();
      } else if i == 9 {
        SMFUnsuccessfulProcedureWellFormed();
      } else if i == 10 {
        AMFIdentifierAssociationWellFormed();
      } else if i == 11 {
        AMFPositioningInfoTransferWellFormed();
      } else if i == 12 {
        AMFRANHandoverCommandWellFormed();
      } else if i == 13 {
        AMFRANHandoverRequestWellFormed();
      } else if i == 14 {
        AMFUEPolicyTransferWellFormed();
      } else if i == 15 {
        AMFUEServiceAcceptWellFormed();
      } else {
        AMFIdentifierDeassociationWellFormed();
      }
    }
  }

  lemma {:induction false} PayloadWellFormed()
    ensures Ascending(PayloadFields) && forall i :: 0 <= i < |PayloadFields| ==> WellFormed(PayloadFields[i].ty)
  {
    EventWellFormed();
  }
}
