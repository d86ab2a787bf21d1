/** The HTTP handlers that sequence the store: each POST handler is a method whose steps are the
    store calls the handler makes, in order; each GET handler is a function of the store's state.
    The clock, the uuid generator and the QR-code encoder are parameters. */
module Routes {
  import opened Common
  import opened Schema
  import opened Ordering
  import opened Storage

  /** Why a handler answered with an error status. */
  datatype Reason =
    | Message(text: string)   // a fixed message written by the handler
    | Thrown(error: DbError)  // a store error, caught and reported with its message
    | EncoderFailed           // the QR-code encoder failed

  datatype Response<T> = Json(body: T) | Fail(status: nat, reason: Reason)

  // ---------------------------------------------------------------------------
  // Lot identifiers: "KC-2024-" followed by the last six characters of Date.now() in decimal

  const LotIdPrefix: string := "KC-2024-"

  /** The generated lot id: the prefix, then the last six characters of the clock's rendering. */
  function LotId(clock: nat): (r: string)
    ensures |LotIdPrefix| < |r| <= |LotIdPrefix| + 6
    ensures r[..|LotIdPrefix|] == LotIdPrefix
    ensures forall i :: |LotIdPrefix| <= i < |r| ==> IsDigit(r[i])
  {
    var digits := Last(NatToString(clock), 6);
    assert forall i :: |LotIdPrefix| <= i < |LotIdPrefix + digits| ==>
      (LotIdPrefix + digits)[i] == digits[i - |LotIdPrefix|];
    LotIdPrefix + digits
  }

  function Pow10(k: nat): (p: nat)
    ensures p >= 1
  {
    if k == 0 then 1 else 10 * Pow10(k - 1)
  }

  /** The `k` low-order decimal digits of `n`, zero-padded to length `k`. */
  function LowDigits(n: nat, k: nat): (s: string)
    ensures |s| == k
  {
    if k == 0 then [] else LowDigits(n / 10, k - 1) + [DigitChar(n % 10)]
  }

  lemma {:induction false} NatToStringLength(n: nat, j: nat)
    requires n >= Pow10(j)
    ensures |NatToString(n)| > j
    decreases j
  {
    if j > 0 {
      NatToStringLength(n / 10, j - 1);
    }
  }

  /** Taking the last `k` elements after appending one: the last `k - 1` before it, then it. */
  lemma LastSnoc<T>(s: seq<T>, c: T, k: nat)
    requires 1 <= k <= |s| + 1
    ensures Last(s + [c], k) == Last(s, k - 1) + [c]
  {
    assert (s + [c])[|s| + 1 - k..] == s[|s| - (k - 1)..] + [c];
  }

  /** The decimal rendering of a number of two or more digits: that of `n / 10`, then its last digit. */
  lemma NatToStringSnoc(n: nat)
    requires n >= 10
    ensures NatToString(n) == NatToString(n / 10) + [DigitChar(n % 10)]
  {
  }

  lemma Pow10Step(j: nat)
    requires j >= 1
    ensures Pow10(j) == 10 * Pow10(j - 1) && Pow10(j) >= 10
  {
  }

  /** One low-order digit is the remainder by ten. */
  lemma LowDigitsOne(n: nat)
    ensures LowDigits(n, 1) == [DigitChar(n % 10)]
  {
    assert LowDigits(n, 1) == LowDigits(n / 10, 0) + [DigitChar(n % 10)];
  }

  /** The last element after appending one is that element. */
  lemma LastOfSnoc<T>(s: seq<T>, c: T)
    ensures Last(s + [c], 1) == [c]
  {
    LastSnoc(s, c, 1);
    assert Last(s, 0) == [];
  }

  /** The last character of a number's rendering is its last digit. */
  lemma LastIsLowDigit(n: nat)
    ensures Last(NatToString(n), 1) == LowDigits(n, 1)
  {
    LowDigitsOne(n);
    if n < 10 {
      assert n % 10 == n;
      assert NatToString(n) == [DigitChar(n % 10)];
    } else {
      NatToStringSnoc(n);
      LastOfSnoc(NatToString(n / 10), DigitChar(n % 10));
    }
  }

  /** The last `k` characters of a number of at least `k` digits are its `k` low-order digits. */
  lemma {:induction false} LastIsLowDigits(n: nat, k: nat)
    requires k >= 1 && n >= Pow10(k - 1)
    ensures Last(NatToString(n), k) == LowDigits(n, k)
    decreases k
  {
    if k == 1 {
      LastIsLowDigit(n);
    } else {
      var d := DigitChar(n % 10);
      var s := NatToString(n / 10);
      Pow10Step(k - 1);
      NatToStringSnoc(n);
      NatToStringLength(n / 10, k - 2);
      LastSnoc(s, d, k);
      LastIsLowDigits(n / 10, k - 1);
      assert LowDigits(n, k) == LowDigits(n / 10, k - 1) + [d];
    }
  }

  /** Adding 10^k leaves the `k` low-order digits unchanged. */
  lemma {:induction false} LowDigitsPeriodic(n: nat, k: nat)
    ensures LowDigits(n + Pow10(k), k) == LowDigits(n, k)
    decreases k
  {
    if k > 0 {
      assert (n + Pow10(k)) / 10 == n / 10 + Pow10(k - 1);
      assert (n + Pow10(k)) % 10 == n % 10;
      LowDigitsPeriodic(n / 10, k - 1);
    }
  }

  lemma DigitCharInjective(a: nat, b: nat)
    requires a < 10 && b < 10 && DigitChar(a) == DigitChar(b)
    ensures a == b
  {
  }

  /** Two numbers with the same `k` low-order digits are at least 10^k apart. */
  lemma {:induction false} LowDigitsSeparation(a: nat, b: nat, k: nat)
    requires a < b && LowDigits(a, k) == LowDigits(b, k)
    ensures b - a >= Pow10(k)
    decreases k
  {
    if k > 0 {
      assert LowDigits(a, k)[k - 1] == DigitChar(a % 10);
      assert LowDigits(b, k)[k - 1] == DigitChar(b % 10);
      DigitCharInjective(a % 10, b % 10);
      assert LowDigits(a / 10, k - 1) == LowDigits(a, k)[..k - 1] == LowDigits(b, k)[..k - 1] == LowDigits(b / 10, k - 1);
      LowDigitsSeparation(a / 10, b / 10, k - 1);
    }
  }

  /** From a clock of six or more digits on, the lot id is the prefix followed by exactly the
      clock's six low-order decimal digits. */
  lemma LotIdShape(clock: nat)
    requires clock >= 100000
    ensures LotId(clock) == LotIdPrefix + LowDigits(clock, 6)
    ensures |LotId(clock)| == 14
  {
    assert Pow10(5) == 100000;
    LastIsLowDigits(clock, 6);
  }

  /** Two requests 1,000,000 ms apart generate the same lot identifier: uniqueness of `lotId`
      rests on the store's unique constraint, which rejects the second lot. */
  lemma LotIdRepeatsEveryMillionMs(clock: nat)
    requires clock >= 100000
    ensures LotId(clock) == LotId(clock + 1000000)
  {
    assert Pow10(5) == 100000 && Pow10(6) == 1000000;
    LastIsLowDigits(clock, 6);
    LastIsLowDigits(clock + 1000000, 6);
    LowDigitsPeriodic(clock, 6);
  }

  /** Within any window of 1,000,000 ms, distinct clocks give distinct lot identifiers. */
  lemma LotIdDistinctWithinWindow(a: nat, b: nat)
    requires 100000 <= a < b < a + 1000000
    ensures LotId(a) != LotId(b)
  {
    assert Pow10(5) == 100000 && Pow10(6) == 1000000;
    LastIsLowDigits(a, 6);
    LastIsLowDigits(b, 6);
    if LotId(a) == LotId(b) {
      assert LowDigits(a, 6) == LotId(a)[8..] == LotId(b)[8..] == LowDigits(b, 6);
      LowDigitsSeparation(a, b, 6);
    }
  }

  // ---------------------------------------------------------------------------
  // POST /api/lots

  /** The traceability record the handler hands to the QR-code encoder. */
  datatype QrPayload = QrPayload(
    lotId: string, farmerId: string, quantity: int, processingMethod: string, timestamp: string)

  function LotQrPayload(data: NewCoffeeLot, clock: nat, isoTime: string): QrPayload {
    QrPayload(LotId(clock), data.farmerId, data.quantity, data.processingMethod, isoTime)
  }

  /** Generates the lot identifier, encodes the traceability record, then stores the request's
      lot with the generated `lotId` and the encoded `qrCode`. All or nothing: when the encoder
      or the insert fails, nothing is stored and the answer is 400. */
  method PostLots(store: DatabaseStorage, rowId: string, data: NewCoffeeLot, clock: nat, isoTime: string,
                  encode: QrPayload -> Option<string>, now: int)
    returns (resp: Response<CoffeeLot>)
    requires store.Valid()
    modifies store`lots
    ensures store.Valid()
    ensures resp.Json? <==> encode(LotQrPayload(data, clock, isoTime)).Some?
                            && forall l :: l in old(store.lots) ==> l.id != rowId && l.lotId != LotId(clock)
    ensures resp.Json? ==> store.lots == old(store.lots) + [resp.body]
    ensures resp.Json? ==> resp.body == CoffeeLotRow(rowId, data.(lotId := LotId(clock)),
                                                     encode(LotQrPayload(data, clock, isoTime)), now)
    ensures resp.Json? ==> resp.body.lotId == LotId(clock) && resp.body.qrCode.Some?
    ensures resp.Fail? ==> resp.status == 400 && store.lots == old(store.lots)
    ensures encode(LotQrPayload(data, clock, isoTime)).None? ==> resp == Fail(400, EncoderFailed)
  {
    var lotId := LotId(clock);
    var qrCode := encode(QrPayload(lotId, data.farmerId, data.quantity, data.processingMethod, isoTime));
    if qrCode.None? {
      return Fail(400, EncoderFailed);
    }
    var created := store.CreateCoffeeLot(rowId, data.(lotId := lotId), qrCode, now);
    match created
    case Ok(lot) => resp := Json(lot);
    case Err(e) => resp := Fail(400, Thrown(e));
  }

  // ---------------------------------------------------------------------------
  // GET /api/lots and GET /api/farmers: query-parameter dispatch

  /** `farmerId` wins over `status`; with neither, every lot. Always newest first. */
  function GetLots(store: DatabaseStorage, farmerId: Option<string>, status: Option<string>)
    : (r: Response<seq<CoffeeLot>>)
    reads store
    ensures Truthy(farmerId) ==>
              && r.Json?
              && (forall x ::
                    multiset(r.body)[x] == if x.farmerId == farmerId.value then multiset(store.lots)[x] else 0)
    ensures !Truthy(farmerId) && Truthy(status) ==>
              (r.Fail? <==> ParseLotStatus(status.value).None?)
              && (r.Fail? ==> r.status == 500)
              && (r.Json? ==>
                    forall x ::
                      multiset(r.body)[x] ==
                        if LotStatusLabel(x.status) == status.value then multiset(store.lots)[x] else 0)
    ensures !Truthy(farmerId) && !Truthy(status) ==> r.Json? && multiset(r.body) == multiset(store.lots)
    ensures r.Json? ==> forall i, j :: 0 <= i < j < |r.body| ==> r.body[i].createdAt >= r.body[j].createdAt
  {
    if Truthy(farmerId) then Json(store.GetCoffeeLotsByFarmer(farmerId.value))
    else if Truthy(status) then
      match store.GetCoffeeLotsByStatus(status.value)
      case Ok(lots) => Json(lots)
      case Err(e) => Fail(500, Thrown(e))
    else Json(store.GetAllCoffeeLots())
  }

  /** With a `cooperativeId`, that cooperative's farmers; otherwise every farmer, oldest first. */
  function GetFarmers(store: DatabaseStorage, cooperativeId: Option<string>): (r: seq<Farmer>)
    reads store
    ensures Truthy(cooperativeId) ==>
              forall x ::
                multiset(r)[x] == if x.cooperativeId == cooperativeId then multiset(store.farmers)[x] else 0
    ensures !Truthy(cooperativeId) ==> multiset(r) == multiset(store.farmers)
                                       && forall i, j :: 0 <= i < j < |r| ==> r[i].createdAt <= r[j].createdAt
  {
    if Truthy(cooperativeId) then store.GetFarmersByCooperative(cooperativeId.value) else store.GetAllFarmers()
  }

  // ---------------------------------------------------------------------------
  // GET /api/inventory

  const InventoryParamsRequired: string := "facilityType and facilityId are required"

  /** Both parameters are required; when either is missing the answer is 400 and does not
      depend on the store. */
  function GetInventory(store: DatabaseStorage, facilityType: Option<string>, facilityId: Option<string>)
    : (r: Response<seq<InventoryRecord>>)
    reads store
    ensures !(Truthy(facilityType) && Truthy(facilityId)) ==> r == Fail(400, Message(InventoryParamsRequired))
    ensures Truthy(facilityType) && Truthy(facilityId) ==>
              && r.Json?
              && (forall x ::
                    multiset(r.body)[x] ==
                      if x.facilityType == facilityType.value && x.facilityId == facilityId.value
                      then multiset(store.inventory)[x] else 0)
  {
    if !Truthy(facilityType) || !Truthy(facilityId) then Fail(400, Message(InventoryParamsRequired))
    else Json(store.GetInventory(facilityType.value, facilityId.value))
  }

  // ---------------------------------------------------------------------------
  // POST /api/bids

  /** With distinct ids, the row found by id is the only row carrying that id. */
  lemma UniqueIdRow(auctions: seq<Auction>, a: Auction)
    requires forall i, j :: 0 <= i < j < |auctions| ==> auctions[i].id != auctions[j].id
    requires a in auctions
    ensures forall i :: 0 <= i < |auctions| && auctions[i].id == a.id ==> auctions[i] == a
  {
  }

  /** Records the bid first; then, if the auction exists, rewrites it with its own status and the
      bidder as `winnerId`. The amount is never compared with anything, the auction's status is
      never checked, and `currentPrice` is never written. */
  method PostBids(store: DatabaseStorage, bidId: string, data: NewBid, now: int) returns (resp: Response<Bid>)
    requires store.Valid()
    modifies store`bids, store`auctions
    ensures store.Valid()
    ensures resp.Json? <==> forall b :: b in old(store.bids) ==> b.id != bidId
    ensures resp.Json? ==> resp.body == BidRow(bidId, data, now) && store.bids == old(store.bids) + [resp.body]
    ensures resp.Fail? ==> resp.status == 400 && store.bids == old(store.bids) && store.auctions == old(store.auctions)
    ensures |store.auctions| == |old(store.auctions)|
    ensures resp.Json? ==> forall i :: 0 <= i < |store.auctions| ==>
              store.auctions[i] == if old(store.auctions)[i].id == data.auctionId
                                   then old(store.auctions)[i].(winnerId := DatabaseStorage.WinnerAfter(old(store.auctions)[i].winnerId, Some(data.bidderId)))
                                   else old(store.auctions)[i]
    ensures forall i :: 0 <= i < |store.auctions| ==>
              store.auctions[i].status == old(store.auctions)[i].status
              && store.auctions[i].currentPrice == old(store.auctions)[i].currentPrice
  {
    var created := store.CreateBid(bidId, data, now);
    if created.Err? {
      return Fail(400, Thrown(created.error));
    }
    var bid := created.value;
    var auction := store.GetAuction(data.auctionId);
    if auction.Some? {
      var a := auction.value;
      assert store.AuctionsValid();
      UniqueIdRow(store.auctions, a);
      var _ := store.UpdateAuctionStatus(a.id, a.status, Some(bid.bidderId));
    }
    resp := Json(bid);
  }

  // ---------------------------------------------------------------------------
  // POST /api/payments

  const TransactionPrefix: string := "TXN-"

  /** Stores the payment with `transactionId` replaced by "TXN-" followed by a fresh uuid. */
  method PostPayments(store: DatabaseStorage, rowId: string, data: NewPayment, uuid: string, now: int)
    returns (resp: Response<Payment>)
    requires store.Valid()
    modifies store`payments
    ensures store.Valid()
    ensures resp.Json? <==> forall p :: p in old(store.payments) ==>
                              p.id != rowId && p.transactionId != TransactionPrefix + uuid
    ensures resp.Json? ==> resp.body == PaymentRow(rowId, data.(transactionId := TransactionPrefix + uuid), now)
                           && store.payments == old(store.payments) + [resp.body]
    ensures resp.Json? ==> resp.body.transactionId == "TXN-" + uuid && resp.body.status == OrDefault(data.status, Pending)
    ensures resp.Fail? ==> resp.status == 400 && store.payments == old(store.payments)
  {
    var created := store.CreatePayment(rowId, data.(transactionId := TransactionPrefix + uuid), now);
    match created
    case Ok(p) => resp := Json(p);
    case Err(e) => resp := Fail(400, Thrown(e));
  }

  // ---------------------------------------------------------------------------
  // POST /api/sms/send

  /** Stores the notification, then marks it "sent" whether or not an SMS gateway is configured
      (both branches make the same call). The answer is the row as first inserted. `now` is the
      database clock at the insert (`createdAt`); `sentNow` is the handler's later clock read
      (`sentAt`). */
  method PostSmsSend(store: DatabaseStorage, rowId: string, data: NewSmsNotification,
                     gatewayConfigured: bool, now: int, sentNow: int)
    returns (resp: Response<SmsNotification>)
    requires store.Valid()
    modifies store`sms
    ensures store.Valid()
    ensures resp.Json? <==> forall n :: n in old(store.sms) ==> n.id != rowId
    ensures resp.Json? ==> resp.body == SmsRow(rowId, data, now)
    ensures resp.Json? ==> resp.body.status == OrDefault(data.status, "pending")
    ensures resp.Json? ==> store.sms == old(store.sms) + [resp.body.(status := "sent", sentAt := Some(sentNow))]
    ensures resp.Fail? ==> resp.status == 400 && store.sms == old(store.sms)
  {
    var created := store.CreateSmsNotification(rowId, data, now);
    if created.Err? {
      return Fail(400, Thrown(created.error));
    }
    var notification := created.value;
    ghost var before := store.sms;
    if gatewayConfigured {
      var _ := store.UpdateSmsStatus(notification.id, "sent", sentNow);
    } else {
      var _ := store.UpdateSmsStatus(notification.id, "sent", sentNow);
    }
    assert store.sms == before[..|before| - 1] + [notification.(status := "sent", sentAt := Some(sentNow))] by {
      forall i | 0 <= i < |before| - 1 ensures store.sms[i] == before[i] {
        assert before[i] in old(store.sms);
      }
    }
    resp := Json(notification);
  }

  // ---------------------------------------------------------------------------
  // GET /api/dashboard/stats

  datatype Stats = Stats(activeFarmers: nat, coffeeLots: nat, totalInventory: int, activeAuctions: nat)

  /** The sum of the lots' quantities (the dashboard's `reduce`, in hundredths). */
  function TotalQuantity(lots: seq<CoffeeLot>): (total: int)
    ensures (forall i :: 0 <= i < |lots| ==> lots[i].quantity >= 0) ==>
              total >= 0 && forall i :: 0 <= i < |lots| ==> lots[i].quantity <= total
    decreases |lots|
  {
    if lots == [] then 0 else lots[0].quantity + TotalQuantity(lots[1..])
  }

  lemma {:induction false} TotalQuantityConcat(a: seq<CoffeeLot>, b: seq<CoffeeLot>)
    ensures TotalQuantity(a + b) == TotalQuantity(a) + TotalQuantity(b)
    decreases |a|
  {
    if a == [] {
      assert a + b == b;
    } else {
      assert (a + b)[0] == a[0];
      assert (a + b)[1..] == a[1..] + b;
      TotalQuantityConcat(a[1..], b);
    }
  }

  /** Removing the lot at `k` lowers the total by its quantity. */
  lemma {:induction false} TotalQuantityRemove(b: seq<CoffeeLot>, k: nat)
    requires k < |b|
    ensures TotalQuantity(b) == b[k].quantity + TotalQuantity(b[..k] + b[k + 1..])
    decreases k
  {
    if k == 0 {
      assert b[..0] + b[1..] == b[1..];
    } else {
      var t := b[1..];
      TotalQuantityRemove(t, k - 1);
      var rest := b[..k] + b[k + 1..];
      assert rest[0] == b[0];
      assert rest[1..] == t[..k - 1] + t[k..];
    }
  }

  /** The head of a sequence occurs in any permutation of it, and what remains on each side is
      again a permutation. */
  lemma MatchHead<T>(a: seq<T>, b: seq<T>) returns (k: nat)
    requires a != [] && multiset(a) == multiset(b)
    ensures k < |b| && b[k] == a[0]
    ensures multiset(a[1..]) == multiset(b[..k] + b[k + 1..])
  {
    assert a[0] in multiset(b);
    k :| 0 <= k < |b| && b[k] == a[0];
    assert a == [a[0]] + a[1..];
    assert b == b[..k] + [b[k]] + b[k + 1..];
    assert multiset(a[1..]) == multiset(a) - multiset{a[0]};
  }

  /** The total does not depend on the order of the lots. */
  lemma {:induction false} TotalQuantityPermutation(a: seq<CoffeeLot>, b: seq<CoffeeLot>)
    requires multiset(a) == multiset(b)
    ensures TotalQuantity(a) == TotalQuantity(b)
    decreases |a|
  {
    if a == [] {
      assert |b| == |multiset(b)| == 0;
    } else {
      var k := MatchHead(a, b);
      TotalQuantityPermutation(a[1..], b[..k] + b[k + 1..]);
      TotalQuantityRemove(b, k);
    }
  }

  /** Creating a lot raises the dashboard total by exactly that lot's quantity. */
  lemma TotalQuantityAppend(lots: seq<CoffeeLot>, lot: CoffeeLot)
    ensures TotalQuantity(lots + [lot]) == TotalQuantity(lots) + lot.quantity
  {
    TotalQuantityConcat(lots, [lot]);
    assert TotalQuantity([lot]) == lot.quantity + TotalQuantity([]);
  }

  /** Counts of all farmers, all lots and the "active" auctions, and the summed lot quantity. */
  function DashboardStats(store: DatabaseStorage): (r: Stats)
    reads store
    ensures r.activeFarmers == |store.farmers|
    ensures r.coffeeLots == |store.lots|
    ensures r.totalInventory == TotalQuantity(store.lots)
    ensures r.activeAuctions == Count(store.auctions, IsActiveAuction)
  {
    var farmers := store.GetAllFarmers();
    var lots := store.GetAllCoffeeLots();
    var active := store.GetActiveAuctions();
    assert |farmers| == |multiset(farmers)| == |multiset(store.farmers)| == |store.farmers|;
    assert |lots| == |multiset(lots)| == |multiset(store.lots)| == |store.lots|;
    TotalQuantityPermutation(lots, store.lots);
    Stats(|farmers|, |lots|, TotalQuantity(lots), |active|)
  }
}
