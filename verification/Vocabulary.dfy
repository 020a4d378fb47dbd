// The words every other module shares: event types, category buckets, raw events. Event types
// are an enumeration of the names the tables mention; any other name the Mist API sends is
// Unlisted, and Unlisted("") is an event without a type. The buckets and the reverse map are
// written out as the source has them, and proved to agree.
module Vocabulary {

  datatype Option<+T> = None | Some(value: T)

  datatype EventType =
    | ClientIpAssigned
    | ClientIpv6Assigned
    | DhcpNak
    | DhcpFailureEvent
    | DhcpStuck
    | FailedDhcpInform
    | Dhcpv6Nak
    | Dhcpv6Failure
    | Dhcpv6Stuck
    | ClientDnsOk
    | MarvisDnsFailure
    | ClientAuthenticated
    | ClientAuthAssociation
    | ClientAuthAssociation11r
    | ClientAuthAssociationOkc
    | ClientAuthFailure
    | ClientAuthDenied
    | ClientMacAuthFailure
    | SaeAuthFailure
    | SaQueryTimeout
    | ClientAssociation
    | ClientAssociationFailure
    | ClientAuthReassociation
    | ClientAuthReassociation11r
    | ClientAuthReassociationOkc
    | ClientReassociation
    | ClientReassociationPmkc
    | ClientAssociationPmkc
    | ClientFbtFailure
    | ClientAuthFailureOkc
    | ClientAuthFailure11r
    | WlcFtKeyNotFound
    | ClientReassociationFailure
    | ClientDeassociation
    | ClientDeauthentication
    | ClientDeauthenticated
    | StaLeaving
    | ClientGwArpOk
    | ClientGwArpFailure
    | ClientArpFailure
    | ClientExcessiveArpingGw
    | CaptivePortFlowRedirect
    | HttpRedirProcessed
    | CaptivePortalAuthorized
    | WxlanPolicyLookupFailure
    | DefaultGatewaySpoofingDetected
    | ClientStaticIpBlocked
    | ClientJoinedCall
    | ClientLeftCall
    | ClientDisconnectedFromCall
    | HighCpuObserved
    | RadiusDasNotify
    | Unlisted(name: string)

  const NO_TYPE := Unlisted("")

  datatype Category =
    | DhcpSuccess | DhcpFailure | DnsSuccess | DnsFailure
    | AuthSuccess | AuthFailure | RoamSuccess | RoamFailure
    | DisassocAp | DisassocClient | ArpSuccess | ArpFailure
    | CaptivePortal | Security | Collaboration | Other

  // The order in which EVENT_CATEGORIES lists its keys.
  const CATEGORIES: seq<Category> := [
    DhcpSuccess, DhcpFailure, DnsSuccess, DnsFailure,
    AuthSuccess, AuthFailure, RoamSuccess, RoamFailure,
    DisassocAp, DisassocClient, ArpSuccess, ArpFailure,
    CaptivePortal, Security, Collaboration, Other]

  // EVENT_CATEGORIES: the event types listed under one category.
  function Bucket(c: Category): seq<EventType> {
    match c
    case DhcpSuccess => [ClientIpAssigned, ClientIpv6Assigned]
    case DhcpFailure => [DhcpNak, DhcpFailureEvent, DhcpStuck, FailedDhcpInform]
    case DnsSuccess => [ClientDnsOk]
    case DnsFailure => [MarvisDnsFailure]
    case AuthSuccess =>
      [ClientAuthenticated, ClientAuthAssociation, ClientAuthReassociation, ClientReassociation]
    case AuthFailure =>
      [ClientAuthFailure, ClientAuthDenied, ClientMacAuthFailure, SaeAuthFailure, SaQueryTimeout]
    case RoamSuccess =>
      [ClientAuthAssociationOkc, ClientAuthAssociation11r, ClientAuthReassociation11r,
       ClientAuthReassociationOkc, ClientReassociationPmkc, ClientAssociationPmkc]
    case RoamFailure =>
      [ClientFbtFailure, ClientAuthFailureOkc, ClientAuthFailure11r, WlcFtKeyNotFound,
       ClientReassociationFailure]
    case DisassocAp => [ClientDeauthentication]
    case DisassocClient => [ClientDeassociation, ClientDeauthenticated, StaLeaving]
    case ArpSuccess => [ClientGwArpOk]
    case ArpFailure => [ClientGwArpFailure, ClientArpFailure, ClientExcessiveArpingGw]
    case CaptivePortal =>
      [CaptivePortFlowRedirect, HttpRedirProcessed, CaptivePortalAuthorized, WxlanPolicyLookupFailure]
    case Security => [DefaultGatewaySpoofingDetected, ClientStaticIpBlocked]
    case Collaboration =>
      [ClientJoinedCall, ClientLeftCall, ClientDisconnectedFromCall, HighCpuObserved]
    case Other => [RadiusDasNotify]
  }

  // The reverse map: the category a type is listed under, if any.
  function Listed(t: EventType): Option<Category> {
    match t
    case ClientIpAssigned | ClientIpv6Assigned => Some(DhcpSuccess)
    case DhcpNak | DhcpFailureEvent | DhcpStuck | FailedDhcpInform => Some(DhcpFailure)
    case ClientDnsOk => Some(DnsSuccess)
    case MarvisDnsFailure => Some(DnsFailure)
    case ClientAuthenticated | ClientAuthAssociation | ClientAuthReassociation
      | ClientReassociation => Some(AuthSuccess)
    case ClientAuthFailure | ClientAuthDenied | ClientMacAuthFailure | SaeAuthFailure
      | SaQueryTimeout => Some(AuthFailure)
    case ClientAuthAssociationOkc | ClientAuthAssociation11r | ClientAuthReassociation11r
      | ClientAuthReassociationOkc | ClientReassociationPmkc | ClientAssociationPmkc => Some(RoamSuccess)
    case ClientFbtFailure | ClientAuthFailureOkc | ClientAuthFailure11r | WlcFtKeyNotFound
      | ClientReassociationFailure => Some(RoamFailure)
    case ClientDeauthentication => Some(DisassocAp)
    case ClientDeassociation | ClientDeauthenticated | StaLeaving => Some(DisassocClient)
    case ClientGwArpOk => Some(ArpSuccess)
    case ClientGwArpFailure | ClientArpFailure | ClientExcessiveArpingGw => Some(ArpFailure)
    case CaptivePortFlowRedirect | HttpRedirProcessed | CaptivePortalAuthorized
      | WxlanPolicyLookupFailure => Some(CaptivePortal)
    case DefaultGatewaySpoofingDetected | ClientStaticIpBlocked => Some(Security)
    case ClientJoinedCall | ClientLeftCall | ClientDisconnectedFromCall | HighCpuObserved =>
      Some(Collaboration)
    case RadiusDasNotify => Some(Other)
    case _ => None
  }

  // _get_category: unlisted types fall into OTHER.
  function CategoryOf(t: EventType): Category {
    if Listed(t).Some? then Listed(t).value else Other
  }

  // DHCPv6 failures are dropped at ingest.
  predicate Ignored(t: EventType) {
    t in {Dhcpv6Nak, Dhcpv6Failure, Dhcpv6Stuck}
  }

  // One raw event of the Mist feed; `rest` stands for the fields nothing here reads.
  datatype Event = Event(
    mac: string,
    etype: EventType,
    timestamp: real,
    bssid: string,
    ap: string,
    siteId: string,
    hasPcap: Option<bool>,
    pcapUrl: Option<string>,
    statusCode: Option<int>,
    rssi: Option<int>,
    rest: string)

  lemma AccessBucket(t: EventType, c: Category)
    requires c in {DhcpSuccess, DnsSuccess, AuthSuccess}
    ensures t in Bucket(c) ==> Listed(t) == Some(c)
  {
  }

  lemma AccessTypes(t: EventType)
    requires Listed(t).Some? && Listed(t).value in {DhcpSuccess, DnsSuccess, AuthSuccess}
    ensures t in Bucket(Listed(t).value)
  {
  }

  lemma HandoverBucket(t: EventType, c: Category)
    requires c in {RoamSuccess, ArpSuccess}
    ensures t in Bucket(c) ==> Listed(t) == Some(c)
  {
  }

  lemma HandoverTypes(t: EventType)
    requires Listed(t).Some? && Listed(t).value in {RoamSuccess, ArpSuccess}
    ensures t in Bucket(Listed(t).value)
  {
  }

  lemma RefusalBucket(t: EventType, c: Category)
    requires c in {DhcpFailure, DnsFailure, AuthFailure}
    ensures t in Bucket(c) ==> Listed(t) == Some(c)
  {
  }

  lemma RefusalTypes(t: EventType)
    requires Listed(t).Some? && Listed(t).value in {DhcpFailure, DnsFailure, AuthFailure}
    ensures t in Bucket(Listed(t).value)
  {
  }

  lemma BreakdownBucket(t: EventType, c: Category)
    requires c in {RoamFailure, ArpFailure}
    ensures t in Bucket(c) ==> Listed(t) == Some(c)
  {
  }

  lemma BreakdownTypes(t: EventType)
    requires Listed(t).Some? && Listed(t).value in {RoamFailure, ArpFailure}
    ensures t in Bucket(Listed(t).value)
  {
  }

  lemma LeavingBucket(t: EventType, c: Category)
    requires c in {DisassocAp, DisassocClient, Other}
    ensures t in Bucket(c) ==> Listed(t) == Some(c)
  {
  }

  lemma LeavingTypes(t: EventType)
    requires Listed(t).Some? && Listed(t).value in {DisassocAp, DisassocClient, Other}
    ensures t in Bucket(Listed(t).value)
  {
  }

  lemma PolicyBucket(t: EventType, c: Category)
    requires c in {CaptivePortal, Security}
    ensures t in Bucket(c) ==> Listed(t) == Some(c)
  {
  }

  lemma PolicyTypes(t: EventType)
    requires Listed(t).Some? && Listed(t).value in {CaptivePortal, Security}
    ensures t in Bucket(Listed(t).value)
  {
  }

  lemma CallBucket(t: EventType, c: Category)
    requires c in {Collaboration}
    ensures t in Bucket(c) ==> Listed(t) == Some(c)
  {
  }

  lemma CallTypes(t: EventType)
    requires Listed(t).Some? && Listed(t).value in {Collaboration}
    ensures t in Bucket(Listed(t).value)
  {
  }

  lemma ListedTypesAreInTheirBucket(t: EventType)
    requires Listed(t).Some?
    ensures t in Bucket(Listed(t).value)
  {
    match Listed(t).value
    case DhcpSuccess | DnsSuccess | AuthSuccess => AccessTypes(t);
    case RoamSuccess | ArpSuccess => HandoverTypes(t);
    case DhcpFailure | DnsFailure | AuthFailure => RefusalTypes(t);
    case RoamFailure | ArpFailure => BreakdownTypes(t);
    case DisassocAp | DisassocClient | Other => LeavingTypes(t);
    case CaptivePortal | Security => PolicyTypes(t);
    case Collaboration => CallTypes(t);
  }

  // The buckets and the reverse map agree, so no type is in two buckets.
  lemma BucketsMatchReverseMap(t: EventType, c: Category)
    ensures t in Bucket(c) <==> Listed(t) == Some(c)
  {
    if Listed(t) == Some(c) {
      ListedTypesAreInTheirBucket(t);
    }
    match c
    case DhcpSuccess | DnsSuccess | AuthSuccess => AccessBucket(t, c);
    case RoamSuccess | ArpSuccess => HandoverBucket(t, c);
    case DhcpFailure | DnsFailure | AuthFailure => RefusalBucket(t, c);
    case RoamFailure | ArpFailure => BreakdownBucket(t, c);
    case DisassocAp | DisassocClient | Other => LeavingBucket(t, c);
    case CaptivePortal | Security => PolicyBucket(t, c);
    case Collaboration => CallBucket(t, c);
  }

  lemma BucketsListNoTypeTwice(c: Category)
    ensures forall i, j :: 0 <= i < j < |Bucket(c)| ==> Bucket(c)[i] != Bucket(c)[j]
  {
    match c
    case _ =>
  }
}
