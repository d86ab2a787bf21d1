/** The tables of the coffee supply-chain database: enum types, one row type per table, the
    insert inputs (which columns a caller may supply) and the column defaults an insert fills in.
    Timestamps are integers (milliseconds); decimal(10,2) columns are integers in hundredths. */
module Schema {
  import opened Common

  // ---------------------------------------------------------------------------
  // Enum types

  datatype UserRole = FarmerRole | MillRole | CooperativeRole | ExporterRole | RoasterRole | RetailerRole

  /** The processing stages of a lot, in the order the enum type declares them. */
  datatype LotStatus =
    | Harvested | WetProcessing | DryProcessing | QualityTesting | ReadyForAuction
    | Sold | Exported | Roasted | Retail

  datatype Grade = AA | AB | C | PB | E

  datatype PaymentStatus = Pending | Processing | Completed | Failed

  function UserRoleLabel(r: UserRole): string {
    match r
    case FarmerRole => "farmer"
    case MillRole => "mill"
    case CooperativeRole => "cooperative"
    case ExporterRole => "exporter"
    case RoasterRole => "roaster"
    case RetailerRole => "retailer"
  }

  function LotStatusLabel(s: LotStatus): string {
    match s
    case Harvested => "harvested"
    case WetProcessing => "wet_processing"
    case DryProcessing => "dry_processing"
    case QualityTesting => "quality_testing"
    case ReadyForAuction => "ready_for_auction"
    case Sold => "sold"
    case Exported => "exported"
    case Roasted => "roasted"
    case Retail => "retail"
  }

  function GradeLabel(g: Grade): string {
    match g
    case AA => "AA"
    case AB => "AB"
    case C => "C"
    case PB => "PB"
    case E => "E"
  }

  function PaymentStatusLabel(s: PaymentStatus): string {
    match s
    case Pending => "pending"
    case Processing => "processing"
    case Completed => "completed"
    case Failed => "failed"
  }

  /** The declared order of the lot-status enum type. */
  const LotStatusOrder: seq<LotStatus> :=
    [Harvested, WetProcessing, DryProcessing, QualityTesting, ReadyForAuction, Sold, Exported, Roasted, Retail]

  /** Position of a status in the declared order of the enum type. */
  function LotStatusRank(s: LotStatus): (k: nat)
    ensures k < |LotStatusOrder| && LotStatusOrder[k] == s
  {
    match s
    case Harvested => 0
    case WetProcessing => 1
    case DryProcessing => 2
    case QualityTesting => 3
    case ReadyForAuction => 4
    case Sold => 5
    case Exported => 6
    case Roasted => 7
    case Retail => 8
  }

  /** The lot-status type has exactly nine labels, pairwise distinct, listed in declared order. */
  lemma LotStatusOrderIsExact()
    ensures |LotStatusOrder| == 9
    ensures forall i, j :: 0 <= i < j < |LotStatusOrder| ==> LotStatusOrder[i] != LotStatusOrder[j]
    ensures forall s: LotStatus :: s in LotStatusOrder
    ensures forall i :: 0 <= i < |LotStatusOrder| ==> LotStatusRank(LotStatusOrder[i]) == i
  {
    forall s: LotStatus ensures s in LotStatusOrder {
      assert LotStatusOrder[LotStatusRank(s)] == s;
    }
  }

  // ---------------------------------------------------------------------------
  // Reading a string as an enum label, as the store does when a string meets an enum column

  function ParseUserRole(text: string): (r: Option<UserRole>)
    ensures r.Some? ==> UserRoleLabel(r.value) == text
    ensures r.None? ==> forall x: UserRole :: UserRoleLabel(x) != text
  {
    if text == "farmer" then Some(FarmerRole)
    else if text == "mill" then Some(MillRole)
    else if text == "cooperative" then Some(CooperativeRole)
    else if text == "exporter" then Some(ExporterRole)
    else if text == "roaster" then Some(RoasterRole)
    else if text == "retailer" then Some(RetailerRole)
    else None
  }

  function ParseLotStatus(text: string): (r: Option<LotStatus>)
    ensures r.Some? ==> LotStatusLabel(r.value) == text
    ensures r.None? ==> forall x: LotStatus :: LotStatusLabel(x) != text
  {
    if text == "harvested" then Some(Harvested)
    else if text == "wet_processing" then Some(WetProcessing)
    else if text == "dry_processing" then Some(DryProcessing)
    else if text == "quality_testing" then Some(QualityTesting)
    else if text == "ready_for_auction" then Some(ReadyForAuction)
    else if text == "sold" then Some(Sold)
    else if text == "exported" then Some(Exported)
    else if text == "roasted" then Some(Roasted)
    else if text == "retail" then Some(Retail)
    else None
  }

  function ParseGrade(text: string): (r: Option<Grade>)
    ensures r.Some? ==> GradeLabel(r.value) == text
    ensures r.None? ==> forall x: Grade :: GradeLabel(x) != text
  {
    if text == "AA" then Some(AA)
    else if text == "AB" then Some(AB)
    else if text == "C" then Some(C)
    else if text == "PB" then Some(PB)
    else if text == "E" then Some(E)
    else None
  }

  function ParsePaymentStatus(text: string): (r: Option<PaymentStatus>)
    ensures r.Some? ==> PaymentStatusLabel(r.value) == text
    ensures r.None? ==> forall x: PaymentStatus :: PaymentStatusLabel(x) != text
  {
    if text == "pending" then Some(Pending)
    else if text == "processing" then Some(Processing)
    else if text == "completed" then Some(Completed)
    else if text == "failed" then Some(Failed)
    else None
  }

  /** Every enum label reads back as the value it names, and distinct values have distinct labels. */
  lemma LabelsRoundTrip()
    ensures forall x: UserRole :: ParseUserRole(UserRoleLabel(x)) == Some(x)
    ensures forall x: LotStatus :: ParseLotStatus(LotStatusLabel(x)) == Some(x)
    ensures forall x: Grade :: ParseGrade(GradeLabel(x)) == Some(x)
    ensures forall x: PaymentStatus :: ParsePaymentStatus(PaymentStatusLabel(x)) == Some(x)
  {
    forall x: UserRole ensures ParseUserRole(UserRoleLabel(x)) == Some(x) {
      match x
      case FarmerRole =>
      case MillRole =>
      case CooperativeRole =>
      case ExporterRole =>
      case RoasterRole =>
      case RetailerRole =>
    }
    forall x: LotStatus ensures ParseLotStatus(LotStatusLabel(x)) == Some(x) {
      match x
      case Harvested =>
      case WetProcessing =>
      case DryProcessing =>
      case QualityTesting =>
      case ReadyForAuction =>
      case Sold =>
      case Exported =>
      case Roasted =>
      case Retail =>
    }
    forall x: Grade ensures ParseGrade(GradeLabel(x)) == Some(x) {
      match x
      case AA =>
      case AB =>
      case C =>
      case PB =>
      case E =>
    }
    forall x: PaymentStatus ensures ParsePaymentStatus(PaymentStatusLabel(x)) == Some(x) {
      match x
      case Pending =>
      case Processing =>
      case Completed =>
      case Failed =>
    }
  }

  // ---------------------------------------------------------------------------
  // Column defaults

  const DefaultLotStatus: LotStatus := Harvested
  const DefaultPaymentStatus: PaymentStatus := Pending
  /** Auction and SMS status are free-text columns with a text default. */
  const DefaultAuctionStatus: string := "active"
  const DefaultSmsStatus: string := "pending"
  const DefaultIsActive: bool := true

  function OrDefault<T>(given: Option<T>, default: T): T {
    if given.Some? then given.value else default
  }

  // ---------------------------------------------------------------------------
  // Rows as stored

  datatype User = User(
    id: string, name: string, email: Option<string>, phone: Option<string>, role: UserRole,
    cooperativeId: Option<string>, isActive: bool, createdAt: int)

  datatype Cooperative = Cooperative(
    id: string, name: string, location: Option<string>, contactEmail: Option<string>,
    contactPhone: Option<string>, createdAt: int)

  datatype Farmer = Farmer(
    id: string, userId: string, farmId: string, farmSize: Option<int>, location: Option<string>,
    cooperativeId: Option<string>, createdAt: int)

  datatype CoffeeLot = CoffeeLot(
    id: string, lotId: string, farmerId: string, quantity: int, grade: Option<Grade>,
    processingMethod: string, status: LotStatus, qrCode: Option<string>, harvestDate: int,
    currentLocation: Option<string>, createdAt: int)

  datatype InventoryRecord = InventoryRecord(
    id: string, lotId: string, facilityType: string, facilityId: string, quantity: int, updatedAt: int)

  datatype Auction = Auction(
    id: string, lotId: string, startingPrice: int, currentPrice: Option<int>, sellerId: string,
    winnerId: Option<string>, status: string, startTime: int, endTime: Option<int>, createdAt: int)

  datatype Bid = Bid(id: string, auctionId: string, bidderId: string, amount: int, bidTime: int)

  datatype Payment = Payment(
    id: string, transactionId: string, lotId: Option<string>, payerId: string, payeeId: string,
    amount: int, status: PaymentStatus, paymentMethod: Option<string>, createdAt: int,
    processedAt: Option<int>)

  datatype SmsNotification = SmsNotification(
    id: string, recipientId: string, phone: string, message: string, status: string,
    sentAt: Option<int>, createdAt: int)

  // ---------------------------------------------------------------------------
  // Insert inputs: the columns a caller may supply. None of them carries `id` or `createdAt`;
  // lots also omit `qrCode` and `harvestDate`, auctions `startTime`, bids `bidTime` and
  // inventory records `updatedAt`. An absent optional column takes its default.

  datatype NewUser = NewUser(
    name: string, email: Option<string>, phone: Option<string>, role: UserRole,
    cooperativeId: Option<string>, isActive: Option<bool>)

  datatype NewCooperative = NewCooperative(
    name: string, location: Option<string>, contactEmail: Option<string>, contactPhone: Option<string>)

  datatype NewFarmer = NewFarmer(
    userId: string, farmId: string, farmSize: Option<int>, location: Option<string>,
    cooperativeId: Option<string>)

  datatype NewCoffeeLot = NewCoffeeLot(
    lotId: string, farmerId: string, quantity: int, grade: Option<Grade>, processingMethod: string,
    status: Option<LotStatus>, currentLocation: Option<string>)

  datatype NewInventoryRecord = NewInventoryRecord(
    lotId: string, facilityType: string, facilityId: string, quantity: int)

  datatype NewAuction = NewAuction(
    lotId: string, startingPrice: int, currentPrice: Option<int>, sellerId: string,
    winnerId: Option<string>, status: Option<string>, endTime: Option<int>)

  datatype NewBid = NewBid(auctionId: string, bidderId: string, amount: int)

  datatype NewPayment = NewPayment(
    transactionId: string, lotId: Option<string>, payerId: string, payeeId: string, amount: int,
    status: Option<PaymentStatus>, paymentMethod: Option<string>, processedAt: Option<int>)

  datatype NewSmsNotification = NewSmsNotification(
    recipientId: string, phone: string, message: string, status: Option<string>, sentAt: Option<int>)

  // ---------------------------------------------------------------------------
  // The row an insert stores: generated `id`, the supplied columns, defaults for the rest,
  // and `now` for every timestamp column that defaults to the current time.

  function UserRow(id: string, d: NewUser, now: int): User {
    User(id, d.name, d.email, d.phone, d.role, d.cooperativeId, OrDefault(d.isActive, DefaultIsActive), now)
  }

  function CooperativeRow(id: string, d: NewCooperative, now: int): Cooperative {
    Cooperative(id, d.name, d.location, d.contactEmail, d.contactPhone, now)
  }

  function FarmerRow(id: string, d: NewFarmer, now: int): Farmer {
    Farmer(id, d.userId, d.farmId, d.farmSize, d.location, d.cooperativeId, now)
  }

  function CoffeeLotRow(id: string, d: NewCoffeeLot, qrCode: Option<string>, now: int): CoffeeLot {
    CoffeeLot(id, d.lotId, d.farmerId, d.quantity, d.grade, d.processingMethod,
              OrDefault(d.status, DefaultLotStatus), qrCode, now, d.currentLocation, now)
  }

  function InventoryRow(id: string, d: NewInventoryRecord, now: int): InventoryRecord {
    InventoryRecord(id, d.lotId, d.facilityType, d.facilityId, d.quantity, now)
  }

  function AuctionRow(id: string, d: NewAuction, now: int): Auction {
    Auction(id, d.lotId, d.startingPrice, d.currentPrice, d.sellerId, d.winnerId,
            OrDefault(d.status, DefaultAuctionStatus), now, d.endTime, now)
  }

  function BidRow(id: string, d: NewBid, now: int): Bid {
    Bid(id, d.auctionId, d.bidderId, d.amount, now)
  }

  function PaymentRow(id: string, d: NewPayment, now: int): Payment {
    Payment(id, d.transactionId, d.lotId, d.payerId, d.payeeId, d.amount,
            OrDefault(d.status, DefaultPaymentStatus), d.paymentMethod, now, d.processedAt)
  }

  function SmsRow(id: string, d: NewSmsNotification, now: int): SmsNotification {
    SmsNotification(id, d.recipientId, d.phone, d.message, OrDefault(d.status, DefaultSmsStatus), d.sentAt, now)
  }
}
