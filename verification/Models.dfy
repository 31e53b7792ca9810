/** The rows of the asset database (app/models).
    Identifiers and timestamps are numbers supplied from outside; a nullable column is an `Option`. */
module Models {
  import opened Wrappers

  type Id = nat
  type Time = int

  datatype DeviceStatus =
    | Available | Assigned | ShippingPending | ReturnShippingPending | UnderRepair
    | Maintenance | Lost | Retired | ReturnedToClient

  datatype RequestStatus =
    | Requested | PendingMgrApproval | PendingItApproval | Assigned | Completed | Rejected | Cancelled

  datatype MgrApproval = NotRequired | Pending | Approved | Rejected

  datatype RejectedBy = ByManager | ByItAdmin | ByItAdminCancel

  datatype OwnerType = Company | Client

  datatype SupportType = Update | Damage | Lost

  datatype SupportStatus = Open | InProgress | Resolved

  datatype SupportResolution = RemoteResolved | RepairedInPlace | Swapped | MarkedLost

  datatype ExtensionStatus = Pending | Approved | Rejected

  datatype ActorRole = Employee | Manager | ItAdmin | System

  datatype DeviceLogEvent =
    | DeviceCreated | DeviceEdited | Assigned | ClientAssigned
    | ShipOutboundInitiated | ShipOutboundCompleted | ReturnShipInitiated | ReturnReceived
    | AssignmentCompleted | StatusChanged | SupportOpened | SupportResolved | SupportAutoClosed
    | ExtensionRequested | ExtensionApproved | ExtensionRejected
    | HandoverRequested | HandoverAccepted | HandoverRejected | HandoverCancelled | HandoverCompleted
    | MarkedLost | Retired | ReturnedToClient | SwappedOut | SwappedIn

  datatype Item = Item(
    serialNo: string,
    name: string,
    categoryId: Id,
    ownerType: OwnerType,
    clientName: Option<string>,
    purchaseDate: Option<Time>,
    status: DeviceStatus,
    owner: Option<Id>,
    updatedAt: Time)

  datatype Request = Request(
    requester: Id,
    categoryId: Id,
    item: Option<Id>,
    requestedFrom: Time,
    requestedTo: Time,
    assignedFrom: Option<Time>,
    assignedTo: Option<Time>,
    status: RequestStatus,
    requiresMgr: bool,
    mgrApproval: MgrApproval,
    manager: Option<Id>,
    decidedBy: Option<Id>,
    decidedAt: Option<Time>,
    rejectedBy: Option<RejectedBy>,
    cancelledBy: Option<Id>,
    cancelledAt: Option<Time>,
    isWfh: bool,
    shipInitiatedAt: Option<Time>,
    shipCompletedAt: Option<Time>,
    returnInitiatedAt: Option<Time>,
    completedBy: Option<Id>,
    completedAt: Option<Time>,
    completedNextStatus: Option<DeviceStatus>,
    isClientDirect: bool,
    createdAt: Time)

  datatype Ticket = Ticket(
    itemId: Id,
    requester: Id,
    requestId: Option<Id>,
    kind: SupportType,
    status: SupportStatus,
    resolution: Option<SupportResolution>,
    swappedTo: Option<Id>,
    filedAt: Time,
    resolvedBy: Option<Id>,
    resolvedAt: Option<Time>,
    autoClosed: bool)

  datatype Extension = Extension(
    requestId: Id,
    requester: Id,
    extendedTo: Time,
    status: ExtensionStatus,
    mgrApproval: MgrApproval,
    decidedBy: Option<Id>,
    decidedAt: Option<Time>)

  datatype User = User(managerId: Option<Id>, isActive: bool)

  /** A row of `device_log`. `fromValue` and `toValue` hold the status whose text the row stores. */
  datatype LogEntry = LogEntry(
    itemId: Id,
    event: DeviceLogEvent,
    actorId: Option<Id>,
    actorRole: ActorRole,
    requestId: Option<Id>,
    ticketId: Option<Id>,
    extensionId: Option<Id>,
    fromValue: Option<DeviceStatus>,
    toValue: Option<DeviceStatus>,
    isMilestone: bool,
    occurredAt: Time)

  /** The committed content of the database; `log` is in append order. */
  datatype State = State(
    items: map<Id, Item>,
    requests: map<Id, Request>,
    tickets: map<Id, Ticket>,
    extensions: map<Id, Extension>,
    users: map<Id, User>,
    categories: set<Id>,
    log: seq<LogEntry>)

  /** How a service call fails. `IndexConflict` is the 409 that `assign` and `direct_assign` make of
      an IntegrityError; the three crashes are exceptions no service translates. */
  datatype Error =
    | NotFound | Conflict | Validation | IndexConflict
    | IndexCrash | ForeignKeyCrash | AssertionCrash

  predicate Terminal(status: RequestStatus) {
    status.Completed? || status.Rejected? || status.Cancelled?
  }

  predicate Unresolved(t: Ticket) {
    t.status.Open? || t.status.InProgress?
  }

  /** Statuses that mean somebody holds the device or it is on its way to or from them. */
  predicate InCustody(status: DeviceStatus) {
    status.Assigned? || status.ShippingPending? || status.ReturnShippingPending?
  }
}
