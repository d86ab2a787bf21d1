/** The persistence layer: one in-memory table per database table, with the insert, update and
    query operations of the application's storage object. Row ids and timestamps that the
    database generates are parameters; a statement the database would reject (a duplicate
    unique key, a string that is not a label of an enum column) returns Err and changes nothing. */
module Storage {
  import opened Common
  import opened Schema
  import opened Ordering

  // Sort keys of the ORDER BY clauses.

  predicate LotNewer(a: CoffeeLot, b: CoffeeLot) { a.createdAt >= b.createdAt }
  predicate AuctionNewer(a: Auction, b: Auction) { a.createdAt >= b.createdAt }
  predicate PaymentNewer(a: Payment, b: Payment) { a.createdAt >= b.createdAt }
  predicate FarmerOlder(a: Farmer, b: Farmer) { a.createdAt <= b.createdAt }
  predicate BidHigher(a: Bid, b: Bid) { a.amount >= b.amount }
  predicate CooperativeNameBefore(a: Cooperative, b: Cooperative) { StrLe(a.name, b.name) }

  /** The WHERE clause of the active-auction listing: the free-text status is exactly "active". */
  predicate IsActiveAuction(a: Auction) { a.status == "active" }

  lemma CooperativeNameOrder()
    ensures TotalPreorder(CooperativeNameBefore)
  {
    forall a: Cooperative, b: Cooperative
      ensures CooperativeNameBefore(a, b) || CooperativeNameBefore(b, a)
    {
      StrLeTotal(a.name, b.name);
    }
    forall a: Cooperative, b: Cooperative, c: Cooperative
      | CooperativeNameBefore(a, b) && CooperativeNameBefore(b, c)
      ensures CooperativeNameBefore(a, c)
    {
      StrLeTransitive(a.name, b.name, c.name);
    }
  }

  class DatabaseStorage {
    var users: seq<User>
    var cooperatives: seq<Cooperative>
    var farmers: seq<Farmer>
    var lots: seq<CoffeeLot>
    var inventory: seq<InventoryRecord>
    var auctions: seq<Auction>
    var bids: seq<Bid>
    var payments: seq<Payment>
    var sms: seq<SmsNotification>

    // -------------------------------------------------------------------------
    // Primary keys and unique columns

    ghost predicate UsersValid() reads this {
      forall i, j :: 0 <= i < j < |users| ==>
        users[i].id != users[j].id && (users[i].email.Some? ==> users[i].email != users[j].email)
    }

    ghost predicate CooperativesValid() reads this {
      forall i, j :: 0 <= i < j < |cooperatives| ==> cooperatives[i].id != cooperatives[j].id
    }

    ghost predicate FarmersValid() reads this {
      forall i, j :: 0 <= i < j < |farmers| ==>
        farmers[i].id != farmers[j].id && farmers[i].farmId != farmers[j].farmId
    }

    ghost predicate LotsValid() reads this {
      forall i, j :: 0 <= i < j < |lots| ==> lots[i].id != lots[j].id && lots[i].lotId != lots[j].lotId
    }

    ghost predicate InventoryValid() reads this {
      forall i, j :: 0 <= i < j < |inventory| ==> inventory[i].id != inventory[j].id
    }

    ghost predicate AuctionsValid() reads this {
      forall i, j :: 0 <= i < j < |auctions| ==> auctions[i].id != auctions[j].id
    }

    ghost predicate BidsValid() reads this {
      forall i, j :: 0 <= i < j < |bids| ==> bids[i].id != bids[j].id
    }

    ghost predicate PaymentsValid() reads this {
      forall i, j :: 0 <= i < j < |payments| ==>
        payments[i].id != payments[j].id && payments[i].transactionId != payments[j].transactionId
    }

    ghost predicate SmsValid() reads this {
      forall i, j :: 0 <= i < j < |sms| ==> sms[i].id != sms[j].id
    }

    /** Every unique constraint of the schema holds: ids in every table; `email` of users (when
        present); `farmId` of farmers; `lotId` of lots; `transactionId` of payments. */
    ghost predicate Valid()
      reads this
      ensures Valid() ==> forall i, j :: 0 <= i < |lots| && 0 <= j < |lots| && lots[i].id == lots[j].id ==> i == j
      ensures Valid() ==> forall i, j :: 0 <= i < |lots| && 0 <= j < |lots| && lots[i].lotId == lots[j].lotId ==> i == j
      ensures Valid() ==> forall i, j :: 0 <= i < |farmers| && 0 <= j < |farmers| && farmers[i].farmId == farmers[j].farmId ==> i == j
      ensures Valid() ==> forall i, j ::
                            0 <= i < |payments| && 0 <= j < |payments| && payments[i].transactionId == payments[j].transactionId
                            ==> i == j
      ensures Valid() ==> forall i, j ::
                            0 <= i < |users| && 0 <= j < |users| && users[i].email.Some? && users[i].email == users[j].email
                            ==> i == j
    {
      && UsersValid() && CooperativesValid() && FarmersValid() && LotsValid() && InventoryValid()
      && AuctionsValid() && BidsValid() && PaymentsValid() && SmsValid()
    }

    constructor ()
      ensures Valid()
      ensures users == [] && cooperatives == [] && farmers == [] && lots == [] && inventory == []
      ensures auctions == [] && bids == [] && payments == [] && sms == []
    {
      users, cooperatives, farmers, lots, inventory := [], [], [], [], [];
      auctions, bids, payments, sms := [], [], [], [];
    }

    // -------------------------------------------------------------------------
    // Users

    function GetUser(id: string): (r: Option<User>)
      reads this
      ensures r.Some? <==> exists i :: 0 <= i < |users| && users[i].id == id
      ensures r.Some? ==> r.value in users && r.value.id == id
    {
      First(users, (u: User) => u.id == id)
    }

    method CreateUser(id: string, data: NewUser, now: int) returns (r: Result<User>)
      requires Valid()
      modifies this`users
      ensures Valid()
      ensures r.Ok? <==> forall u :: u in old(users) ==> u.id != id && (data.email.Some? ==> u.email != data.email)
      ensures r.Ok? ==> r.value == UserRow(id, data, now) && users == old(users) + [r.value]
      ensures r.Ok? ==> r.value.isActive == OrDefault(data.isActive, true)
      ensures r.Err? ==> r.error.UniqueViolation? && users == old(users)
    {
      if exists i :: 0 <= i < |users| && users[i].id == id {
        return Err(UniqueViolation("users.id"));
      }
      if data.email.Some? && exists i :: 0 <= i < |users| && users[i].email == data.email {
        return Err(UniqueViolation("users.email"));
      }
      var row := UserRow(id, data, now);
      users := users + [row];
      r := Ok(row);
    }

    /** `role` is compared with an enum column, so a string that is not a role label is an error. */
    function GetUsersByRole(role: string): (r: Result<seq<User>>)
      reads this
      ensures r.Err? <==> ParseUserRole(role).None?
      ensures r.Ok? ==> forall x :: multiset(r.value)[x] ==
                          if UserRoleLabel(x.role) == role then multiset(users)[x] else 0
    {
      if ParseUserRole(role).None? then Err(InvalidEnumInput(role))
      else Ok(Select(users, (u: User) => UserRoleLabel(u.role) == role))
    }

    // -------------------------------------------------------------------------
    // Cooperatives

    function GetCooperative(id: string): (r: Option<Cooperative>)
      reads this
      ensures r.Some? <==> exists i :: 0 <= i < |cooperatives| && cooperatives[i].id == id
      ensures r.Some? ==> r.value in cooperatives && r.value.id == id
    {
      First(cooperatives, (c: Cooperative) => c.id == id)
    }

    method CreateCooperative(id: string, data: NewCooperative, now: int) returns (r: Result<Cooperative>)
      requires Valid()
      modifies this`cooperatives
      ensures Valid()
      ensures r.Ok? <==> forall c :: c in old(cooperatives) ==> c.id != id
      ensures r.Ok? ==> r.value == CooperativeRow(id, data, now) && cooperatives == old(cooperatives) + [r.value]
      ensures r.Err? ==> r.error.UniqueViolation? && cooperatives == old(cooperatives)
    {
      if exists i :: 0 <= i < |cooperatives| && cooperatives[i].id == id {
        return Err(UniqueViolation("cooperatives.id"));
      }
      var row := CooperativeRow(id, data, now);
      cooperatives := cooperatives + [row];
      r := Ok(row);
    }

    /** All cooperatives, ordered by name. */
    function GetAllCooperatives(): (r: seq<Cooperative>)
      reads this
      ensures multiset(r) == multiset(cooperatives)
      ensures forall i, j :: 0 <= i < j < |r| ==> StrLe(r[i].name, r[j].name)
    {
      CooperativeNameOrder();
      SortBy(cooperatives, CooperativeNameBefore)
    }

    // -------------------------------------------------------------------------
    // Farmers

    function GetFarmer(id: string): (r: Option<Farmer>)
      reads this
      ensures r.Some? <==> exists i :: 0 <= i < |farmers| && farmers[i].id == id
      ensures r.Some? ==> r.value in farmers && r.value.id == id
    {
      First(farmers, (f: Farmer) => f.id == id)
    }

    method CreateFarmer(id: string, data: NewFarmer, now: int) returns (r: Result<Farmer>)
      requires Valid()
      modifies this`farmers
      ensures Valid()
      ensures r.Ok? <==> forall f :: f in old(farmers) ==> f.id != id && f.farmId != data.farmId
      ensures r.Ok? ==> r.value == FarmerRow(id, data, now) && farmers == old(farmers) + [r.value]
      ensures r.Err? ==> r.error.UniqueViolation? && farmers == old(farmers)
    {
      if exists i :: 0 <= i < |farmers| && farmers[i].id == id {
        return Err(UniqueViolation("farmers.id"));
      }
      if exists i :: 0 <= i < |farmers| && farmers[i].farmId == data.farmId {
        return Err(UniqueViolation("farmers.farm_id"));
      }
      var row := FarmerRow(id, data, now);
      farmers := farmers + [row];
      r := Ok(row);
    }

    /** The farmers whose `cooperativeId` is present and equal to `cooperativeId` (no ORDER BY). */
    function GetFarmersByCooperative(cooperativeId: string): (r: seq<Farmer>)
      reads this
      ensures forall x :: multiset(r)[x] ==
                if x.cooperativeId == Some(cooperativeId) then multiset(farmers)[x] else 0
    {
      Select(farmers, (f: Farmer) => f.cooperativeId == Some(cooperativeId))
    }

    /** All farmers, oldest first. */
    function GetAllFarmers(): (r: seq<Farmer>)
      reads this
      ensures multiset(r) == multiset(farmers)
      ensures forall i, j :: 0 <= i < j < |r| ==> r[i].createdAt <= r[j].createdAt
    {
      SortBy(farmers, FarmerOlder)
    }

    // -------------------------------------------------------------------------
    // Coffee lots

    function GetCoffeeLot(id: string): (r: Option<CoffeeLot>)
      reads this
      ensures r.Some? <==> exists i :: 0 <= i < |lots| && lots[i].id == id
      ensures r.Some? ==> r.value in lots && r.value.id == id
    {
      First(lots, (l: CoffeeLot) => l.id == id)
    }

    method CreateCoffeeLot(id: string, data: NewCoffeeLot, qrCode: Option<string>, now: int)
      returns (r: Result<CoffeeLot>)
      requires Valid()
      modifies this`lots
      ensures Valid()
      ensures r.Ok? <==> forall l :: l in old(lots) ==> l.id != id && l.lotId != data.lotId
      ensures r.Ok? ==> r.value == CoffeeLotRow(id, data, qrCode, now) && lots == old(lots) + [r.value]
      ensures r.Ok? ==> r.value.status == OrDefault(data.status, Harvested)
      ensures r.Err? ==> r.error.UniqueViolation? && lots == old(lots)
    {
      if exists i :: 0 <= i < |lots| && lots[i].id == id {
        return Err(UniqueViolation("coffee_lots.id"));
      }
      if exists i :: 0 <= i < |lots| && lots[i].lotId == data.lotId {
        return Err(UniqueViolation("coffee_lots.lot_id"));
      }
      var row := CoffeeLotRow(id, data, qrCode, now);
      lots := lots + [row];
      r := Ok(row);
    }

    /** The lots of one farmer, newest first. */
    function GetCoffeeLotsByFarmer(farmerId: string): (r: seq<CoffeeLot>)
      reads this
      ensures forall x :: multiset(r)[x] == if x.farmerId == farmerId then multiset(lots)[x] else 0
      ensures forall i, j :: 0 <= i < j < |r| ==> r[i].createdAt >= r[j].createdAt
    {
      SortBy(Select(lots, (l: CoffeeLot) => l.farmerId == farmerId), LotNewer)
    }

    /** The lots in one status, newest first; `status` meets an enum column, so a string that is
        not a status label is an error. */
    function GetCoffeeLotsByStatus(status: string): (r: Result<seq<CoffeeLot>>)
      reads this
      ensures r.Err? <==> ParseLotStatus(status).None?
      ensures r.Ok? ==> forall x :: multiset(r.value)[x] ==
                          if LotStatusLabel(x.status) == status then multiset(lots)[x] else 0
      ensures r.Ok? ==> forall i, j :: 0 <= i < j < |r.value| ==> r.value[i].createdAt >= r.value[j].createdAt
    {
      if ParseLotStatus(status).None? then Err(InvalidEnumInput(status))
      else Ok(SortBy(Select(lots, (l: CoffeeLot) => LotStatusLabel(l.status) == status), LotNewer))
    }

    /** Every lot, newest first. */
    function GetAllCoffeeLots(): (r: seq<CoffeeLot>)
      reads this
      ensures multiset(r) == multiset(lots)
      ensures forall i, j :: 0 <= i < j < |r| ==> r[i].createdAt >= r[j].createdAt
    {
      SortBy(lots, LotNewer)
    }

    /** Sets the status of the lot with that id, with no check of the transition; returns the
        updated row, or None when no lot has that id. */
    method UpdateCoffeeLotStatus(id: string, status: string) returns (r: Result<Option<CoffeeLot>>)
      requires Valid()
      modifies this`lots
      ensures Valid()
      ensures ParseLotStatus(status).None? ==> r == Err(InvalidEnumInput(status)) && lots == old(lots)
      ensures ParseLotStatus(status).Some? ==>
                var st := ParseLotStatus(status).value;
                && |lots| == |old(lots)|
                && (forall i :: 0 <= i < |lots| ==>
                      lots[i] == if old(lots)[i].id == id then old(lots)[i].(status := st) else old(lots)[i])
                && r.Ok?
                && (r.value.Some? <==> exists i :: 0 <= i < |old(lots)| && old(lots)[i].id == id)
                && (r.value.Some? ==> exists i :: 0 <= i < |old(lots)| && old(lots)[i].id == id
                                                 && r.value.value == old(lots)[i].(status := st))
    {
      var parsed := ParseLotStatus(status);
      if parsed.None? {
        return Err(InvalidEnumInput(status));
      }
      var st := parsed.value;
      var before := lots;
      lots := seq(|before|, i requires 0 <= i < |before| =>
                if before[i].id == id then before[i].(status := st) else before[i]);
      r := Ok(First(lots, (l: CoffeeLot) => l.id == id));
    }

    // -------------------------------------------------------------------------
    // Inventory

    /** The inventory rows of one facility: both `facilityType` and `facilityId` match. */
    function GetInventory(facilityType: string, facilityId: string): (r: seq<InventoryRecord>)
      reads this
      ensures forall x :: multiset(r)[x] ==
                if x.facilityType == facilityType && x.facilityId == facilityId then multiset(inventory)[x] else 0
    {
      Select(inventory, (v: InventoryRecord) => v.facilityType == facilityType && v.facilityId == facilityId)
    }

    method CreateInventoryRecord(id: string, data: NewInventoryRecord, now: int) returns (r: Result<InventoryRecord>)
      requires Valid()
      modifies this`inventory
      ensures Valid()
      ensures r.Ok? <==> forall v :: v in old(inventory) ==> v.id != id
      ensures r.Ok? ==> r.value == InventoryRow(id, data, now) && inventory == old(inventory) + [r.value]
      ensures r.Err? ==> r.error.UniqueViolation? && inventory == old(inventory)
    {
      if exists i :: 0 <= i < |inventory| && inventory[i].id == id {
        return Err(UniqueViolation("inventory.id"));
      }
      var row := InventoryRow(id, data, now);
      inventory := inventory + [row];
      r := Ok(row);
    }

    /** Sets `quantity` and stamps `updatedAt` on every row of that (lot, facility) pair; returns
        the first updated row in table order, or None when no row matches. */
    method UpdateInventoryQuantity(lotId: string, facilityId: string, quantity: int, now: int)
      returns (r: Option<InventoryRecord>)
      requires Valid()
      modifies this`inventory
      ensures Valid()
      ensures |inventory| == |old(inventory)|
      ensures forall i :: 0 <= i < |inventory| ==>
                inventory[i] == if old(inventory)[i].lotId == lotId && old(inventory)[i].facilityId == facilityId
                                then old(inventory)[i].(quantity := quantity, updatedAt := now)
                                else old(inventory)[i]
      ensures r.None? <==> forall i :: 0 <= i < |old(inventory)| ==>
                             !(old(inventory)[i].lotId == lotId && old(inventory)[i].facilityId == facilityId)
      ensures r.Some? ==> exists i :: 0 <= i < |old(inventory)|
                            && old(inventory)[i].lotId == lotId && old(inventory)[i].facilityId == facilityId
                            && r.value == old(inventory)[i].(quantity := quantity, updatedAt := now)
    {
      var before := inventory;
      inventory := seq(|before|, i requires 0 <= i < |before| =>
                     if before[i].lotId == lotId && before[i].facilityId == facilityId
                     then before[i].(quantity := quantity, updatedAt := now)
                     else before[i]);
      r := First(inventory, (v: InventoryRecord) => v.lotId == lotId && v.facilityId == facilityId);
    }

    // -------------------------------------------------------------------------
    // Auctions

    function GetAuction(id: string): (r: Option<Auction>)
      reads this
      ensures r.Some? <==> exists i :: 0 <= i < |auctions| && auctions[i].id == id
      ensures r.Some? ==> r.value in auctions && r.value.id == id
    {
      First(auctions, (a: Auction) => a.id == id)
    }

    method CreateAuction(id: string, data: NewAuction, now: int) returns (r: Result<Auction>)
      requires Valid()
      modifies this`auctions
      ensures Valid()
      ensures r.Ok? <==> forall a :: a in old(auctions) ==> a.id != id
      ensures r.Ok? ==> r.value == AuctionRow(id, data, now) && auctions == old(auctions) + [r.value]
      ensures r.Ok? ==> r.value.status == OrDefault(data.status, "active") && r.value.startTime == now
      ensures r.Err? ==> r.error.UniqueViolation? && auctions == old(auctions)
    {
      if exists i :: 0 <= i < |auctions| && auctions[i].id == id {
        return Err(UniqueViolation("auctions.id"));
      }
      var row := AuctionRow(id, data, now);
      auctions := auctions + [row];
      r := Ok(row);
    }

    /** The auctions whose status is exactly "active", newest first. */
    function GetActiveAuctions(): (r: seq<Auction>)
      reads this
      ensures forall x :: multiset(r)[x] == if x.status == "active" then multiset(auctions)[x] else 0
      ensures forall i, j :: 0 <= i < j < |r| ==> r[i].createdAt >= r[j].createdAt
      ensures |r| == Count(auctions, IsActiveAuction)
    {
      var active := Select(auctions, IsActiveAuction);
      assert |multiset(active)| == |active|;
      SortBy(active, AuctionNewer)
    }

    /** The winner an update leaves on a row: the supplied one when it is a non-empty string,
        otherwise the row's own. */
    static function WinnerAfter(old_winner: Option<string>, winnerId: Option<string>): Option<string> {
      if Truthy(winnerId) then winnerId else old_winner
    }

    /** Always sets `status`; sets `winnerId` only when a non-empty one is supplied. No other
        column changes, `currentPrice` included. */
    method UpdateAuctionStatus(id: string, status: string, winnerId: Option<string>) returns (r: Option<Auction>)
      requires Valid()
      modifies this`auctions
      ensures Valid()
      ensures |auctions| == |old(auctions)|
      ensures forall i :: 0 <= i < |auctions| ==>
                auctions[i] == if old(auctions)[i].id == id
                               then old(auctions)[i].(status := status, winnerId := WinnerAfter(old(auctions)[i].winnerId, winnerId))
                               else old(auctions)[i]
      ensures r.None? <==> forall i :: 0 <= i < |old(auctions)| ==> old(auctions)[i].id != id
      ensures r.Some? ==> exists i :: 0 <= i < |old(auctions)| && old(auctions)[i].id == id
                            && r.value == old(auctions)[i].(status := status, winnerId := WinnerAfter(old(auctions)[i].winnerId, winnerId))
    {
      var before := auctions;
      auctions := seq(|before|, i requires 0 <= i < |before| =>
                    if before[i].id == id
                    then before[i].(status := status, winnerId := WinnerAfter(before[i].winnerId, winnerId))
                    else before[i]);
      r := First(auctions, (a: Auction) => a.id == id);
    }

    // -------------------------------------------------------------------------
    // Bids

    method CreateBid(id: string, data: NewBid, now: int) returns (r: Result<Bid>)
      requires Valid()
      modifies this`bids
      ensures Valid()
      ensures r.Ok? <==> forall b :: b in old(bids) ==> b.id != id
      ensures r.Ok? ==> r.value == BidRow(id, data, now) && bids == old(bids) + [r.value]
      ensures r.Err? ==> r.error.UniqueViolation? && bids == old(bids)
    {
      if exists i :: 0 <= i < |bids| && bids[i].id == id {
        return Err(UniqueViolation("bids.id"));
      }
      var row := BidRow(id, data, now);
      bids := bids + [row];
      r := Ok(row);
    }

    /** The bids of one auction, highest amount first. */
    function GetBidsByAuction(auctionId: string): (r: seq<Bid>)
      reads this
      ensures forall x :: multiset(r)[x] == if x.auctionId == auctionId then multiset(bids)[x] else 0
      ensures forall i, j :: 0 <= i < j < |r| ==> r[i].amount >= r[j].amount
    {
      SortBy(Select(bids, (b: Bid) => b.auctionId == auctionId), BidHigher)
    }

    /** A bid of that auction whose amount no other bid of it exceeds, or None when it has no bids. */
    function GetHighestBid(auctionId: string): (r: Option<Bid>)
      reads this
      ensures r.None? <==> forall b :: b in bids ==> b.auctionId != auctionId
      ensures r.Some? ==> r.value in bids && r.value.auctionId == auctionId
      ensures r.Some? ==> forall b :: b in bids && b.auctionId == auctionId ==> b.amount <= r.value.amount
    {
      var ranked := GetBidsByAuction(auctionId);
      if ranked == [] then
        assert forall b :: b in bids ==> b.auctionId != auctionId by {
          forall b | b in bids ensures b.auctionId != auctionId {
            assert multiset(ranked)[b] == 0;
          }
        }
        None
      else
        assert ranked[0] in multiset(ranked);
        assert forall b :: b in bids && b.auctionId == auctionId ==> b.amount <= ranked[0].amount by {
          forall b | b in bids && b.auctionId == auctionId ensures b.amount <= ranked[0].amount {
            assert b in multiset(ranked);
            var k :| 0 <= k < |ranked| && ranked[k] == b;
          }
        }
        Some(ranked[0])
    }

    // -------------------------------------------------------------------------
    // Payments

    function GetPayment(id: string): (r: Option<Payment>)
      reads this
      ensures r.Some? <==> exists i :: 0 <= i < |payments| && payments[i].id == id
      ensures r.Some? ==> r.value in payments && r.value.id == id
    {
      First(payments, (p: Payment) => p.id == id)
    }

    method CreatePayment(id: string, data: NewPayment, now: int) returns (r: Result<Payment>)
      requires Valid()
      modifies this`payments
      ensures Valid()
      ensures r.Ok? <==> forall p :: p in old(payments) ==> p.id != id && p.transactionId != data.transactionId
      ensures r.Ok? ==> r.value == PaymentRow(id, data, now) && payments == old(payments) + [r.value]
      ensures r.Ok? ==> r.value.status == OrDefault(data.status, Pending)
      ensures r.Err? ==> r.error.UniqueViolation? && payments == old(payments)
    {
      if exists i :: 0 <= i < |payments| && payments[i].id == id {
        return Err(UniqueViolation("payments.id"));
      }
      if exists i :: 0 <= i < |payments| && payments[i].transactionId == data.transactionId {
        return Err(UniqueViolation("payments.transaction_id"));
      }
      var row := PaymentRow(id, data, now);
      payments := payments + [row];
      r := Ok(row);
    }

    /** The payments the user made or received, newest first. */
    function GetPaymentsByUser(userId: string): (r: seq<Payment>)
      reads this
      ensures forall x :: multiset(r)[x] ==
                if x.payerId == userId || x.payeeId == userId then multiset(payments)[x] else 0
      ensures forall i, j :: 0 <= i < j < |r| ==> r[i].createdAt >= r[j].createdAt
    {
      SortBy(Select(payments, (p: Payment) => p.payerId == userId || p.payeeId == userId), PaymentNewer)
    }

    /** Sets the status and stamps `processedAt` on every call; `status` meets an enum column. */
    method UpdatePaymentStatus(id: string, status: string, now: int) returns (r: Result<Option<Payment>>)
      requires Valid()
      modifies this`payments
      ensures Valid()
      ensures ParsePaymentStatus(status).None? ==> r == Err(InvalidEnumInput(status)) && payments == old(payments)
      ensures ParsePaymentStatus(status).Some? ==>
                var st := ParsePaymentStatus(status).value;
                && |payments| == |old(payments)|
                && (forall i :: 0 <= i < |payments| ==>
                      payments[i] == if old(payments)[i].id == id
                                     then old(payments)[i].(status := st, processedAt := Some(now))
                                     else old(payments)[i])
                && r.Ok?
                && (r.value.Some? <==> exists i :: 0 <= i < |old(payments)| && old(payments)[i].id == id)
                && (r.value.Some? ==> exists i :: 0 <= i < |old(payments)| && old(payments)[i].id == id
                                        && r.value.value == old(payments)[i].(status := st, processedAt := Some(now)))
    {
      var parsed := ParsePaymentStatus(status);
      if parsed.None? {
        return Err(InvalidEnumInput(status));
      }
      var st := parsed.value;
      var before := payments;
      payments := seq(|before|, i requires 0 <= i < |before| =>
                    if before[i].id == id then before[i].(status := st, processedAt := Some(now)) else before[i]);
      r := Ok(First(payments, (p: Payment) => p.id == id));
    }

    // -------------------------------------------------------------------------
    // SMS notifications

    method CreateSmsNotification(id: string, data: NewSmsNotification, now: int) returns (r: Result<SmsNotification>)
      requires Valid()
      modifies this`sms
      ensures Valid()
      ensures r.Ok? <==> forall n :: n in old(sms) ==> n.id != id
      ensures r.Ok? ==> r.value == SmsRow(id, data, now) && sms == old(sms) + [r.value]
      ensures r.Ok? ==> r.value.status == OrDefault(data.status, "pending")
      ensures r.Err? ==> r.error.UniqueViolation? && sms == old(sms)
    {
      if exists i :: 0 <= i < |sms| && sms[i].id == id {
        return Err(UniqueViolation("sms_notifications.id"));
      }
      var row := SmsRow(id, data, now);
      sms := sms + [row];
      r := Ok(row);
    }

    /** The notifications whose status is exactly "pending" (no ORDER BY). */
    function GetPendingSmsNotifications(): (r: seq<SmsNotification>)
      reads this
      ensures forall x :: multiset(r)[x] == if x.status == "pending" then multiset(sms)[x] else 0
    {
      Select(sms, (n: SmsNotification) => n.status == "pending")
    }

    /** The `sentAt` an update leaves on a row: stamped for "sent", kept otherwise. */
    static function SentAtAfter(old_sentAt: Option<int>, status: string, now: int): Option<int> {
      if status == "sent" then Some(now) else old_sentAt
    }

    /** Sets the status; stamps `sentAt` only when the new status is "sent". */
    method UpdateSmsStatus(id: string, status: string, now: int) returns (r: Option<SmsNotification>)
      requires Valid()
      modifies this`sms
      ensures Valid()
      ensures |sms| == |old(sms)|
      ensures forall i :: 0 <= i < |sms| ==>
                sms[i] == if old(sms)[i].id == id
                          then old(sms)[i].(status := status, sentAt := SentAtAfter(old(sms)[i].sentAt, status, now))
                          else old(sms)[i]
      ensures r.None? <==> forall i :: 0 <= i < |old(sms)| ==> old(sms)[i].id != id
      ensures r.Some? ==> exists i :: 0 <= i < |old(sms)| && old(sms)[i].id == id
                            && r.value == old(sms)[i].(status := status, sentAt := SentAtAfter(old(sms)[i].sentAt, status, now))
    {
      var before := sms;
      sms := seq(|before|, i requires 0 <= i < |before| =>
               if before[i].id == id
               then before[i].(status := status, sentAt := SentAtAfter(before[i].sentAt, status, now))
               else before[i]);
      r := First(sms, (n: SmsNotification) => n.id == id);
    }
  }
}
