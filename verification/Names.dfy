/** The Go types of iri/iri.go that records are built from. */
module GoType {
  datatype Name =
    | SUPI | IMSI | NAI | PEI | IMEI | IMEISV | GPSI | MSISDN | UEEndpointAddress | IPv4Address | IPv6Address
    | MACAddress | AMFFailureCause | FiveGMMCause | FiveGSMCause | FiveGSSubscriberID | SubscriberSUPI
    | SubscriberPEI | SubscriberGPSI | ServiceMessageIdentity | ServiceRequestIdentity
    | ServiceAcceptIdentity | HandoverCause | CauseRadioNetwork | CauseTransport | CauseNas | CauseProtocol
    | CauseMisc | SNSSAI | SliceServiceType | SliceDifferentiator | FTEID | TEID | FiveGSGTPTunnels
    | GTPTunnelInfo | LocationInfo | Bool | Location | FiveGSSubscriberIDs | UserIdentifiers
    | PDUSessionResourceInformation | PDUSessionID | FiveGGUTI | MCC | MNC | AMFRegionID | AMFSetID
    | AMFPointer | FiveGTMSI | SUCI | RoutingIndicator | ProtectionSchemeID | HomeNetworkPublicKeyID
    | SchemeOutput | RoutingIndicatorLength | SUPIType | HomeNetworkIdentifier | PLMNID | TAI | TAC | NID
    | SMFServingNetwork | AMFID | SUPIUnauthenticatedIndication | AMFRegistration | AMFRegistrationType
    | AMFRegistrationResult | RATType | AMFDeregistration | AMFDirection | AccessType
    | AMFStartOfInterceptionWithRegisteredUE | SMFPDUSessionEstablishment | PDUSessionType | DNN
    | FiveGSMRequestType | SMFPDUSessionModification | SMFPDUSessionRelease | Int64 | AMFLocationUpdate
    | AMFUnsuccessfulProcedure | AMFFailedProcedureType | AMFIdentifierAssociation
    | AMFIdentifierDeassociation | SMFStartOfInterceptionWithEstablishedPDUSession | SMFUnsuccessfulProcedure
    | SMFFailedProcedureType | Initiator | AMFUEServiceAccept | ServiceType | AMFUEPolicyTransfer | UEPolicy
    | AMFPositioningInfoTransfer | Bytes | LCSCorrelationID | AMFRANHandoverCommand | AMFUENGAPID
    | RANUENGAPID | HandoverType | RANTargetToSourceContainer | AMFRANHandoverRequest
    | RANSourceToTargetContainer | XIRIEvent | XIRIPayload
}

/** The member names of the structures in iri/iri.go. */
module GoField {
  datatype Name =
    | SliceServiceType | SliceDifferentiator | MappedHPLMNSST | MappedHPLMNSD | TEID | IPv4Address
    | IPv6Address | ULNGUUPTunnelInformation | FiveGSGTPTunnels | CurrentLocation | LocationInfo | IDs
    | FiveGS | PDUSessionID | MCC | MNC | AMFRegionID | AMFSetID | AMFPointer | FiveGTMSI | RoutingIndicator
    | ProtectionSchemeID | HomeNetworkPublicKeyID | SchemeOutput | RoutingIndicatorLength | SUPIType
    | HomeNetworkIdentifier | PLMNID | TAC | NID | RegistrationType | RegistrationResult | SUPI | SUCI | PEI
    | GPSI | GUTI | FiveGSTAIList | RATType | DeregistrationDirection | AccessType | SUPIUnauthenticated
    | GTPTunnelID | PDUSessionType | SNSSAI | UEEndpoint | DNN | AMFID | RequestType | ServingNetwork
    | GTPTunnelInfo | UplinkVolume | DownlinkVolume | Location | FailedProcedureType | FailureCause
    | Initiator | UserIdentifiers | ServiceMessageIdentity | ServiceType | UEPolicy | NRPPaMessage
    | LPPMessage | LCSCorrelationID | AMFUENGAPID | RANUENGAPID | HandoverType | TargetToSourceContainer
    | HandoverCause | PDUSessionResourceInformation | SourceToTargetContainer | OID | Event
}
